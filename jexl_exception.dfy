/**
 * `org.apache.commons.jexl3.JexlException` and its seven subclasses: how a fault is
 * turned into an exception (cause unwrapping, location merge) and how the exception's
 * message is composed (location text, debugger excerpt, per-kind detail text, the
 * null-operand annotation).
 *
 * Java `null` is `None`. The `Debugger` and `JexlInfo.toString()` are collaborators whose
 * code is not part of this model; they are passed in as functions (`Collaborators`).
 */
module Jexl {
  import opened Wrappers
  import JavaInt

  /** The content of `NULL_OPERAND`; the reference itself is `Msg.NullOperand`. */
  const NULL_OPERAND_TEXT: string := "jexl.null"
  /** How far the excerpt window reaches on each side of the column (twice that forward near the start). */
  const MIN_EXCHARLOC: int := 10
  /** Expressions shorter than this are shown whole. */
  const MAX_EXCHARLOC: int := 15
  const CANCELLED: string := "execution cancelled"
  const NULL_OPERAND_SUFFIX: string := " caused by null operand"

  /** A `JexlInfo`: source name, line and column. */
  datatype Loc = Loc(name: string, line: int, column: int)

  /** A syntax node, reduced to an identity and what its `jexlInfo()` answers. */
  datatype Node = Node(id: nat, jexlInfo: Option<Loc>)

  /**
   * What a throwable's `getMessage()` returns: `null`, the very `NULL_OPERAND` reference,
   * or some other string (which may well have the content "jexl.null").
   */
  datatype Msg = NoMessage | NullOperand | Text(text: string)

  /** The lexer's and the parser's faults, which report where they happened. */
  datatype TokenMgrError = TokenMgrError(line: int, column: int, msg: Msg)
  datatype ParseException = ParseException(line: int, column: int, msg: Msg)

  /** A throwable given as a cause. The two reflective wrappers may hold `null`. */
  datatype Fault =
    | InvocationTarget(target: Option<Fault>, msg: Msg)
    | UndeclaredThrowable(undeclared: Option<Fault>, msg: Msg)
    | TokenError(tokenError: TokenMgrError)
    | ParseError(parseError: ParseException)
    | Other(msg: Msg)

  /** An arbitrary Java object carried by `Return`: `null` or a reference. */
  datatype Value = NullValue | Ref(address: nat)

  /** The base class and its seven subclasses. */
  datatype Kind =
    | Generic
    | TokenizationError
    | ParsingError
    | UnknownVariable
    | InaccessibleProperty
    | UnresolvedMethod
    | ReturnSignal(result: Value)
    | CancelSignal

  /** A successful `Debugger.debug(node)`: `start()`, `end()` and `data()`. */
  datatype Rendering = Rendering(start: int, end: int, data: string)

  /**
   * The collaborators: a fresh `Debugger` asked to render a node (`None` when `debug`
   * returns false) and `JexlInfo.toString()`.
   */
  datatype Collaborators = Collaborators(debug: Option<Node> -> Option<Rendering>, infoText: Loc -> string)

  predicate IsWrapper(f: Fault) {
    f.InvocationTarget? || f.UndeclaredThrowable?
  }

  /** `getMessage()` of a cause. */
  function CauseMessage(f: Fault): Msg {
    match f
    case InvocationTarget(_, m) => m
    case UndeclaredThrowable(_, m) => m
    case TokenError(e) => e.msg
    case ParseError(e) => e.msg
    case Other(m) => m
  }

  /**
   * `unwrap`: peels one `InvocationTargetException` or `UndeclaredThrowableException`,
   * yielding the wrapped throwable (which may be `null`); anything else, `null`
   * included, passes through.
   */
  function Unwrap(x: Option<Fault>): (r: Option<Fault>)
    ensures x.None? ==> r == None
    ensures x.Some? && x.value.InvocationTarget? ==> r == x.value.target
    ensures x.Some? && x.value.UndeclaredThrowable? ==> r == x.value.undeclared
    ensures x.Some? && !IsWrapper(x.value) ==> r == x
  {
    match x
    case Some(InvocationTarget(target, _)) => target
    case Some(UndeclaredThrowable(undeclared, _)) => undeclared
    case _ => x
  }

  /** The location of an exception raised at `node`: the node's `jexlInfo()`, or `null` without a node. */
  function NodeInfo(node: Option<Node>): (r: Option<Loc>)
    ensures node.None? ==> r.None?
    ensures node.Some? ==> r == node.value.jexlInfo
  {
    if node.Some? then node.value.jexlInfo else None
  }

  /**
   * `Tokenization.merge`: without a fault the ambient location is kept as it is, even
   * when `null`; with one, the fault's line and column win and the name is the ambient
   * one, or empty without one.
   */
  function TokenizationMerge(info: Option<Loc>, cause: Option<TokenMgrError>): (r: Option<Loc>)
    ensures cause.None? ==> r == info
    ensures cause.Some? ==> r.Some? && r.value.line == cause.value.line && r.value.column == cause.value.column
    ensures cause.Some? ==> r.value.name == if info.Some? then info.value.name else ""
  {
    if cause.None? then info
    else if info.None? then Some(Loc("", cause.value.line, cause.value.column))
    else Some(Loc(info.value.name, cause.value.line, cause.value.column))
  }

  /** `Parsing.merge`, written the same way for the parser's fault type. */
  function ParsingMerge(info: Option<Loc>, cause: Option<ParseException>): (r: Option<Loc>)
    ensures cause.None? ==> r == info
    ensures cause.Some? ==> r.Some? && r.value.line == cause.value.line && r.value.column == cause.value.column
    ensures cause.Some? ==> r.value.name == if info.Some? then info.value.name else ""
  {
    if cause.None? then info
    else if info.None? then Some(Loc("", cause.value.line, cause.value.column))
    else Some(Loc(info.value.name, cause.value.line, cause.value.column))
  }

  /**
   * The excerpt `[begin, end)` that `parserError` cuts around a column: from ten
   * characters before the column (at least 0) to ten after it, or to twenty after it when
   * the column is within the first ten; never past the end of the text.
   */
  function ExcerptWindow(column: int, length: nat): (int, int) {
    var begin := if column < MIN_EXCHARLOC then 0 else column - MIN_EXCHARLOC;
    var end := if column < MIN_EXCHARLOC then column + 2 * MIN_EXCHARLOC else column + MIN_EXCHARLOC;
    (begin, if end > length then length else end)
  }

  /** `substring(begin, end)` does not throw on this window. */
  predicate WindowDefined(column: int, length: nat) {
    ExcerptWindow(column, length).0 <= ExcerptWindow(column, length).1
  }

  /** Whether `parserError(prefix, expr)` returns normally for this column. */
  predicate ParserErrorDefined(expr: string, column: int) {
    |expr| >= MAX_EXCHARLOC ==> WindowDefined(column, |expr|)
  }

  /** The text `parserError` returns: the whole expression if short, else a window of it. */
  function ParserErrorText(prefix: string, expr: string, column: int): string
    requires ParserErrorDefined(expr, column)
  {
    if |expr| < MAX_EXCHARLOC then
      prefix + " error in '" + expr + "'"
    else
      var (begin, end) := ExcerptWindow(column, |expr|);
      prefix + " error near '... " + expr[begin..end] + " ...'"
  }

  /** The `![start,end]: 'data'` segment of a message. */
  function ExcerptSegment(r: Rendering): string {
    "![" + JavaInt.DecimalString(r.start) + "," + JavaInt.DecimalString(r.end) + "]: '" + r.data + "'"
  }

  /** The cause is present and its message is the `NULL_OPERAND` reference itself. */
  predicate NullOperandCause(cause: Option<Fault>) {
    cause.Some? && CauseMessage(cause.value) == NullOperand
  }

  function NullOperandSuffix(cause: Option<Fault>): string {
    if NullOperandCause(cause) then NULL_OPERAND_SUFFIX else ""
  }

  function LocationText(location: Option<string>): string {
    if location.Some? then location.value else ""
  }

  function ExcerptPart(rendering: Option<Rendering>): string {
    if rendering.Some? then ExcerptSegment(rendering.value) else ""
  }

  /**
   * The message `getMessage` builds from the rendered location, the debugger's answer,
   * the detail text and the cause.
   */
  function ComposeMessage(location: Option<string>, rendering: Option<Rendering>, detail: string, cause: Option<Fault>): string {
    LocationText(location) + ExcerptPart(rendering) + " " + detail
    + NullOperandSuffix(cause)
  }

  /** Appending the segment's pieces one by one appends the segment. */
  lemma AppendedSegment(head: string, r: Rendering)
    ensures head + "![" + JavaInt.DecimalString(r.start) + "," + JavaInt.DecimalString(r.end) + "]: '" + r.data + "'"
            == head + ExcerptSegment(r)
  {
  }

  class JexlException {
    const kind: Kind
    /** The point of origin; every constructor sets it to `null`. */
    const mark: Option<Node>
    const info: Option<Loc>
    /** The message given to `RuntimeException`, returned by `super.getMessage()`. */
    const message: string
    /** The unwrapped cause, returned by `getCause()`. */
    const cause: Option<Fault>

    /** What holds of every constructed exception. */
    ghost predicate Valid() {
      && mark.None?
      && (kind.UnknownVariable? || kind.ReturnSignal? || kind.CancelSignal? ==> cause.None?)
      && (kind.CancelSignal? ==> message == CANCELLED)
    }

    /** `JexlException(JexlInfo, String, Throwable)`, where every constructor chain ends. */
    constructor WithInfo(jinfo: Option<Loc>, msg: string, cause: Option<Fault>)
      ensures Valid()
      ensures kind == Generic && mark == None && info == jinfo
      ensures message == msg && this.cause == Unwrap(cause)
    {
      kind := Generic;
      mark := None;
      info := jinfo;
      message := msg;
      this.cause := Unwrap(cause);
    }

    /** `JexlException(JexlNode, String[, Throwable])`: the location is the node's. */
    constructor AtNode(node: Option<Node>, msg: string, cause: Option<Fault>)
      ensures Valid()
      ensures kind == Generic && mark == None && info == NodeInfo(node)
      ensures message == msg && this.cause == Unwrap(cause)
    {
      kind := Generic;
      mark := None;
      info := NodeInfo(node);
      message := msg;
      this.cause := Unwrap(cause);
    }

    constructor Tokenization(info: Option<Loc>, expr: string, cause: Option<TokenMgrError>)
      ensures Valid()
      ensures kind == TokenizationError && mark == None && this.info == TokenizationMerge(info, cause)
      ensures message == expr
      ensures this.cause == if cause.Some? then Some(TokenError(cause.value)) else None
    {
      kind := TokenizationError;
      mark := None;
      this.info := TokenizationMerge(info, cause);
      message := expr;
      this.cause := Unwrap(if cause.Some? then Some(TokenError(cause.value)) else None);
    }

    constructor Parsing(info: Option<Loc>, expr: string, cause: Option<ParseException>)
      ensures Valid()
      ensures kind == ParsingError && mark == None && this.info == ParsingMerge(info, cause)
      ensures message == expr
      ensures this.cause == if cause.Some? then Some(ParseError(cause.value)) else None
    {
      kind := ParsingError;
      mark := None;
      this.info := ParsingMerge(info, cause);
      message := expr;
      this.cause := Unwrap(if cause.Some? then Some(ParseError(cause.value)) else None);
    }

    constructor Variable(node: Option<Node>, variable: string)
      ensures Valid()
      ensures kind == UnknownVariable && mark == None && info == NodeInfo(node)
      ensures message == variable && cause == None
    {
      kind := UnknownVariable;
      mark := None;
      info := NodeInfo(node);
      message := variable;
      cause := Unwrap(None);
    }

    /** Both `Property` constructors; the two-argument one passes a `null` cause. */
    constructor Property(node: Option<Node>, property: string, cause: Option<Fault>)
      ensures Valid()
      ensures kind == InaccessibleProperty && mark == None && info == NodeInfo(node)
      ensures message == property && this.cause == Unwrap(cause)
    {
      kind := InaccessibleProperty;
      mark := None;
      info := NodeInfo(node);
      message := property;
      this.cause := Unwrap(cause);
    }

    constructor MethodAtNode(node: Option<Node>, name: string, cause: Option<Fault>)
      ensures Valid()
      ensures kind == UnresolvedMethod && mark == None && info == NodeInfo(node)
      ensures message == name && this.cause == Unwrap(cause)
    {
      kind := UnresolvedMethod;
      mark := None;
      info := NodeInfo(node);
      message := name;
      this.cause := Unwrap(cause);
    }

    constructor MethodAtInfo(info: Option<Loc>, name: string, cause: Option<Fault>)
      ensures Valid()
      ensures kind == UnresolvedMethod && mark == None && this.info == info
      ensures message == name && this.cause == Unwrap(cause)
    {
      kind := UnresolvedMethod;
      mark := None;
      this.info := info;
      message := name;
      this.cause := Unwrap(cause);
    }

    constructor Return(node: Option<Node>, msg: string, value: Value)
      ensures Valid()
      ensures kind == ReturnSignal(value) && mark == None && info == NodeInfo(node)
      ensures message == msg && cause == None
    {
      kind := ReturnSignal(value);
      mark := None;
      info := NodeInfo(node);
      message := msg;
      cause := Unwrap(None);
    }

    constructor Cancel(node: Option<Node>)
      ensures Valid()
      ensures kind == CancelSignal && mark == None && info == NodeInfo(node)
      ensures message == CANCELLED && cause == None
    {
      kind := CancelSignal;
      mark := None;
      info := NodeInfo(node);
      message := CANCELLED;
      cause := Unwrap(None);
    }

    /** `getExpression()` of `Tokenization` and `Parsing`. */
    function GetExpression(): (expr: string)
      requires kind.TokenizationError? || kind.ParsingError?
      ensures DetailDefined() ==>
        ParserErrorDefined(expr, info.value.column)
        && Detail() == ParserErrorText(ParserPrefix(), expr, info.value.column)
    {
      message
    }

    /** `Variable.getVariable()`. */
    function GetVariable(): (variable: string)
      requires kind.UnknownVariable?
      ensures Detail() == "undefined variable " + variable
    {
      message
    }

    /** `Property.getProperty()`. */
    function GetProperty(): (property: string)
      requires kind.InaccessibleProperty?
      ensures Detail() == "inaccessible or unknown property " + property
    {
      message
    }

    /** `Method.getMethod()`. */
    function GetMethod(): (name: string)
      requires kind.UnresolvedMethod?
      ensures Detail() == "unknown, ambiguous or inaccessible method " + name
    {
      message
    }

    /** `Return.getValue()`. */
    function GetValue(): (value: Value)
      requires kind.ReturnSignal?
      ensures kind == ReturnSignal(value)
    {
      kind.result
    }

    function ParserPrefix(): string
      requires kind.TokenizationError? || kind.ParsingError?
    {
      if kind.TokenizationError? then "tokenization" else "parsing"
    }

    /** `detailedMessage()` returns normally: the parser kinds need a location and a valid window. */
    predicate DetailDefined() {
      kind.TokenizationError? || kind.ParsingError? ==>
        info.Some? && ParserErrorDefined(message, info.value.column)
    }

    /** The text each kind's `detailedMessage()` returns. */
    function Detail(): string
      requires DetailDefined()
    {
      match kind
      case TokenizationError => ParserErrorText("tokenization", message, info.value.column)
      case ParsingError => ParserErrorText("parsing", message, info.value.column)
      case UnknownVariable => "undefined variable " + message
      case InaccessibleProperty => "inaccessible or unknown property " + message
      case UnresolvedMethod => "unknown, ambiguous or inaccessible method " + message
      case _ => message
    }

    /** The message `getMessage()` returns, given the collaborators. */
    function Message(env: Collaborators): string
      requires DetailDefined()
    {
      var location := if info.Some? then Some(env.infoText(info.value)) else None;
      ComposeMessage(location, env.debug(mark), Detail(), cause)
    }

    /** `parserError`: computes the window step by step, as the source does. */
    method ParserError(prefix: string, expr: string) returns (s: string)
      requires info.Some? && ParserErrorDefined(expr, info.value.column)
      ensures s == ParserErrorText(prefix, expr, info.value.column)
    {
      var begin := info.value.column;
      var end := begin + MIN_EXCHARLOC;
      begin := begin - MIN_EXCHARLOC;
      if begin < 0 {
        end := end + MIN_EXCHARLOC;
        begin := 0;
      }
      var length := |expr|;
      if length < MAX_EXCHARLOC {
        s := prefix + " error in '" + expr + "'";
      } else {
        s := prefix + " error near '... " + expr[begin..if end > length then length else end] + " ...'";
      }
    }

    /**
   * `detailedMessage()`: the same dispatch on the kind as `Detail`, except that the two
   * parser kinds call the step-by-step `ParserError` instead of its closed form.
   */
    method DetailedMessage() returns (d: string)
      requires DetailDefined()
      ensures d == Detail()
    {
      match kind {
        case TokenizationError =>
          d := ParserError("tokenization", GetExpression());
        case ParsingError =>
          d := ParserError("parsing", GetExpression());
        case UnknownVariable =>
          d := "undefined variable " + GetVariable();
        case InaccessibleProperty =>
          d := "inaccessible or unknown property " + GetProperty();
        case UnresolvedMethod =>
          d := "unknown, ambiguous or inaccessible method " + GetMethod();
        case _ =>
          d := message;
      }
    }

    /**
     * `getInfo(offsets)`: the debugger's excerpt of `mark` or the empty string; on success
     * the start and end offsets go into `offsets[0]` and `offsets[1]` when there is room.
     */
    method GetInfo(env: Collaborators, offsets: array?<int>) returns (excerpt: string)
      modifies offsets
      ensures env.debug(mark).None? ==> excerpt == ""
      ensures env.debug(mark).Some? ==> excerpt == env.debug(mark).value.data
      ensures offsets != null ==>
        if env.debug(mark).Some? && offsets.Length >= 2 then
          offsets[0] == env.debug(mark).value.start && offsets[1] == env.debug(mark).value.end
          && offsets[2..] == old(offsets[2..])
        else
          offsets[..] == old(offsets[..])
    {
      var rendered := env.debug(mark);
      if rendered.Some? {
        if offsets != null && offsets.Length >= 2 {
          offsets[0] := rendered.value.start;
          offsets[1] := rendered.value.end;
        }
        return rendered.value.data;
      }
      return "";
    }

    /** `getMessage()`: appends the parts one after the other, as the source's builder does. */
    method GetMessage(env: Collaborators) returns (msg: string)
      requires DetailDefined()
      ensures msg == Message(env)
    {
      var rendered := env.debug(mark);
      ghost var location := if info.Some? then Some(env.infoText(info.value)) else None;
      msg := "";
      if info.Some? {
        msg := msg + env.infoText(info.value);
      }
      assert msg == LocationText(location);
      if rendered.Some? {
        ghost var head := msg;
        msg := msg + "![";
        msg := msg + JavaInt.DecimalString(rendered.value.start);
        msg := msg + ",";
        msg := msg + JavaInt.DecimalString(rendered.value.end);
        msg := msg + "]: '";
        msg := msg + rendered.value.data;
        msg := msg + "'";
        AppendedSegment(head, rendered.value);
      }
      ghost var head := msg;
      assert head == LocationText(location) + (if rendered.Some? then ExcerptSegment(rendered.value) else "");
      msg := msg + " ";
      var detail := DetailedMessage();
      msg := msg + detail;
      if cause.Some? && CauseMessage(cause.value) == NullOperand {
        msg := msg + NULL_OPERAND_SUFFIX;
      }
      assert msg == head + " " + detail + NullOperandSuffix(cause);
    }
  }
}

/** Properties of the exception model. */
module JexlProperties {
  import opened Wrappers
  import opened Jexl

  /** A fault wrapped twice still comes out wrapped once: the unwrap is not repeated. */
  lemma UnwrapOnlyOnce(inner: Fault, m: Msg)
    requires IsWrapper(inner)
    ensures Unwrap(Some(InvocationTarget(Some(inner), m))) == Some(inner)
    ensures Unwrap(Some(UndeclaredThrowable(Some(inner), m))) == Some(inner)
    ensures IsWrapper(Unwrap(Some(InvocationTarget(Some(inner), m))).value)
  {
  }

  /** The two merge functions agree on faults that report the same position. */
  lemma MergesAgree(info: Option<Loc>, line: int, column: int, m1: Msg, m2: Msg)
    ensures TokenizationMerge(info, None) == ParsingMerge(info, None)
    ensures TokenizationMerge(info, Some(TokenMgrError(line, column, m1)))
         == ParsingMerge(info, Some(ParseException(line, column, m2)))
  {
  }

  lemma MergeExample()
    ensures TokenizationMerge(Some(Loc("a.jexl", 1, 1)), Some(TokenMgrError(5, 9, NoMessage)))
         == Some(Loc("a.jexl", 5, 9))
  {
  }

  /**
   * The window always lies within the text, and `substring` accepts it exactly when the
   * column is between -20 and ten past the end.
   */
  lemma WindowBounds(column: int, length: nat)
    ensures 0 <= ExcerptWindow(column, length).0
    ensures ExcerptWindow(column, length).1 <= length
    ensures WindowDefined(column, length) <==> -2 * MIN_EXCHARLOC <= column <= length + MIN_EXCHARLOC
  {
  }

  /** Away from both ends of the text the window is exactly twenty characters wide. */
  lemma WindowFullWidth(column: int, length: nat)
    requires MIN_EXCHARLOC <= column && column + MIN_EXCHARLOC <= length
    ensures ExcerptWindow(column, length).1 - ExcerptWindow(column, length).0 == 2 * MIN_EXCHARLOC
  {
  }

  /**
   * An offset inside the text is inside the window, and the window never exceeds 29
   * characters. `parserError` uses the location's column as an offset into the whole
   * expression, but `JexlInfo.getColumn()` counts within the fault's line, so for an
   * expression of several lines the window need not contain the fault.
   */
  lemma WindowShowsColumn(column: int, length: nat)
    ensures 0 <= column < length ==>
      ExcerptWindow(column, length).0 <= column < ExcerptWindow(column, length).1
    ensures ExcerptWindow(column, length).1 - ExcerptWindow(column, length).0 < 3 * MIN_EXCHARLOC
  {
  }

  /** An expression under fifteen characters is shown whole, whatever the column. */
  lemma ShortExpressionShownWhole(prefix: string, expr: string, column: int)
    requires |expr| < MAX_EXCHARLOC
    ensures ParserErrorDefined(expr, column)
    ensures ParserErrorText(prefix, expr, column) == prefix + " error in '" + expr + "'"
  {
  }

  /** A longer expression is shown as the window around the column. */
  lemma LongExpressionWindowed(prefix: string, expr: string, column: int)
    requires |expr| >= MAX_EXCHARLOC && WindowDefined(column, |expr|)
    ensures ParserErrorDefined(expr, column)
    ensures
      var b := if column < MIN_EXCHARLOC then 0 else column - MIN_EXCHARLOC;
      var e := if column < MIN_EXCHARLOC then column + 20 else column + 10;
      var e' := if e > |expr| then |expr| else e;
      0 <= b <= e' <= |expr| &&
      ParserErrorText(prefix, expr, column) == prefix + " error near '... " + expr[b..e'] + " ...'"
  {
  }

  /** The detail text is bounded by the prefix plus 51 characters, however long the source. */
  lemma ParserErrorBounded(prefix: string, expr: string, column: int)
    requires ParserErrorDefined(expr, column)
    ensures |ParserErrorText(prefix, expr, column)| <= |prefix| + 51
  {
    if |expr| >= MAX_EXCHARLOC {
      WindowShowsColumn(column, |expr|);
    }
  }

  /**
   * The message is the location text, then the excerpt segment when the debugger
   * succeeds, then what a message without location or excerpt would be.
   */
  lemma MessageLayout(location: Option<string>, rendering: Option<Rendering>, detail: string, cause: Option<Fault>)
    ensures ComposeMessage(location, rendering, detail, cause)
         == LocationText(location) + ExcerptPart(rendering) + ComposeMessage(None, None, detail, cause)
    ensures ComposeMessage(None, None, detail, cause) == " " + detail + NullOperandSuffix(cause)
  {
    var l, x, s := LocationText(location), ExcerptPart(rendering), NullOperandSuffix(cause);
    assert ComposeMessage(location, rendering, detail, cause) == l + x + " " + detail + s;
    assert ComposeMessage(None, None, detail, cause) == [] + [] + " " + detail + s;
    Layout(l, x, " ", detail, s);
  }

  /** A proof hint for `MessageLayout`: regroups the concatenation; it states nothing about JEXL. */
  lemma Layout(l: string, x: string, space: string, detail: string, suffix: string)
    ensures l + x + space + detail + suffix == l + x + ([] + [] + space + detail + suffix)
    ensures [] + [] + space + detail + suffix == space + detail + suffix
  {
    ConcatAssoc(l + x, space, detail);
    ConcatAssoc(l + x, space + detail, suffix);
  }

  /** A proof hint for `MessageLayout`: concatenation is associative; it states nothing about JEXL. */
  lemma ConcatAssoc(a: string, b: string, c: string)
    ensures (a + b) + c == a + (b + c)
  {
  }

  /** The message ends with a space, the detail text and the suffix, if any. */
  lemma MessageEndsWithDetail(location: Option<string>, rendering: Option<Rendering>, detail: string, cause: Option<Fault>)
    ensures var m := ComposeMessage(location, rendering, detail, cause);
            var tail := " " + detail + NullOperandSuffix(cause);
            |tail| <= |m| && m[|m| - |tail|..] == tail
  {
    MessageLayout(location, rendering, detail, cause);
  }

  /** The null-operand suffix is the only part of the message the cause contributes. */
  lemma SuffixFollowsCause(location: Option<string>, rendering: Option<Rendering>, detail: string, cause: Option<Fault>)
    ensures ComposeMessage(location, rendering, detail, cause)
         == ComposeMessage(location, rendering, detail, None) + NullOperandSuffix(cause)
  {
    var head := LocationText(location) + ExcerptPart(rendering) + " " + detail;
    assert ComposeMessage(location, rendering, detail, None) == head + [];
  }

  /**
   * The null-operand suffix follows the identity of the cause's message: the
   * `NULL_OPERAND` reference adds it; a different string with the same content does not.
   */
  lemma NullOperandByIdentity(location: Option<string>, rendering: Option<Rendering>, detail: string)
    ensures ComposeMessage(location, rendering, detail, Some(Other(NullOperand)))
         == ComposeMessage(location, rendering, detail, Some(Other(Text(NULL_OPERAND_TEXT)))) + NULL_OPERAND_SUFFIX
    ensures ComposeMessage(location, rendering, detail, Some(Other(Text(NULL_OPERAND_TEXT))))
         == ComposeMessage(location, rendering, detail, None)
  {
    SuffixFollowsCause(location, rendering, detail, Some(Other(NullOperand)));
    SuffixFollowsCause(location, rendering, detail, Some(Other(Text(NULL_OPERAND_TEXT))));
    assert NullOperandSuffix(Some(Other(Text(NULL_OPERAND_TEXT)))) == [];
  }

  /**
   * Since every constructor leaves `mark` null, the message depends on the debugger only
   * through what it answers for `null`.
   */
  lemma MessageNeedsOnlyNullRendering(e: JexlException, env1: Collaborators, env2: Collaborators)
    requires e.Valid() && e.DetailDefined()
    requires env1.debug(None) == env2.debug(None)
    requires forall l :: env1.infoText(l) == env2.infoText(l)
    ensures e.Message(env1) == e.Message(env2)
  {
  }

  /** An unknown variable without location or excerpt reads " undefined variable x". */
  method UnknownVariableReport(variable: string, env: Collaborators) returns (msg: string)
    requires env.debug(None).None?
    ensures msg == " undefined variable " + variable
  {
    var e := new JexlException.Variable(None, variable);
    msg := e.GetMessage(env);
    UnknownVariableMessage(e, env);
  }

  /** Without location, excerpt or cause, an unknown variable's message is its detail after a space. */
  lemma UnknownVariableMessage(e: JexlException, env: Collaborators)
    requires e.kind == UnknownVariable && e.info == None && e.cause == None
    requires env.debug(e.mark) == None
    ensures e.Message(env) == " undefined variable " + e.message
  {
  }

  /** End to end: the same property fault flagged by the sentinel and by a look-alike string. */
  method NullOperandReport(node: Option<Node>, property: string, env: Collaborators)
    returns (flagged: string, plain: string)
    ensures flagged == plain + NULL_OPERAND_SUFFIX
  {
    var e1 := new JexlException.Property(node, property, Some(Other(NullOperand)));
    var e2 := new JexlException.Property(node, property, Some(Other(Text(NULL_OPERAND_TEXT))));
    flagged := e1.GetMessage(env);
    plain := e2.GetMessage(env);
    var location := if e1.info.Some? then Some(env.infoText(e1.info.value)) else None;
    var detail := e1.Detail();
    assert e2.Detail() == detail && e2.info == e1.info;
    assert flagged == ComposeMessage(location, env.debug(None), detail, Some(Other(NullOperand)));
    assert plain == ComposeMessage(location, env.debug(None), detail, Some(Other(Text(NULL_OPERAND_TEXT))));
    NullOperandByIdentity(location, env.debug(None), detail);
  }

  /** Each accessor returns the string given to the constructor. */
  method AccessorsReturnConstructorText(node: Option<Node>, info: Option<Loc>, s: string)
    returns (variable: string, property: string, methodName: string, expression: string)
    ensures variable == s && property == s && methodName == s && expression == s
  {
    var v := new JexlException.Variable(node, s);
    variable := v.GetVariable();
    var p := new JexlException.Property(node, s, None);
    property := p.GetProperty();
    var m := new JexlException.MethodAtInfo(info, s, None);
    methodName := m.GetMethod();
    var t := new JexlException.Tokenization(info, s, None);
    expression := t.GetExpression();
  }

  /** `Return` hands back exactly the value it was built with, whatever its message. */
  method ReturnCarriesValue(node: Option<Node>, msg: string, value: Value) returns (got: Value, detail: string, hasCause: bool)
    ensures got == value && detail == msg && !hasCause
  {
    var r := new JexlException.Return(node, msg, value);
    got := r.GetValue();
    detail := r.DetailedMessage();
    hasCause := r.cause.Some?;
  }

  /** `Cancel` says "execution cancelled" and has no cause. */
  method CancelDetail(node: Option<Node>) returns (detail: string, hasCause: bool)
    ensures detail == "execution cancelled" && !hasCause
  {
    var c := new JexlException.Cancel(node);
    detail := c.DetailedMessage();
    hasCause := c.cause.Some?;
  }

  /** A short expression that fails to tokenize is reported whole, at the lexer's position. */
  method ShortTokenizationReport(name: string, expr: string, error: TokenMgrError, env: Collaborators)
    returns (msg: string)
    requires |expr| < MAX_EXCHARLOC && error.msg != NullOperand && env.debug(None).None?
    ensures msg == env.infoText(Loc(name, error.line, error.column)) + " tokenization error in '" + expr + "'"
  {
    var t := new JexlException.Tokenization(Some(Loc(name, 1, 1)), expr, Some(error));
    msg := t.GetMessage(env);
    var location := env.infoText(Loc(name, error.line, error.column));
    var prefix := "tokenization" + " error in '";
    assert t.Detail() == prefix + expr + "'";
    assert NullOperandSuffix(t.cause) == [];
    assert msg == location + [] + " " + (prefix + expr + "'") + [];
    Regroup(location, " ", prefix, expr, "'");
    SpacedLiterals();
  }

  /** The literal join `ShortTokenizationReport` relies on, proved apart from its context. */
  lemma SpacedLiterals()
    ensures " " + ("tokenization" + " error in '") == " tokenization error in '"
  {
  }

  /** The regrouping of concatenations `ShortTokenizationReport` needs. */
  lemma Regroup(a: string, b: string, c: string, d: string, e: string)
    ensures a + [] + b + (c + d + e) + [] == a + (b + c) + d + e
  {
  }
}
