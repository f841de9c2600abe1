# JEXL exception taxonomy and identifier keys, in Dafny

This project models two parts of Apache Commons JEXL 3.

**`JexlException`** is the exception that every JEXL failure becomes. It has seven subclasses:
- `Tokenization` and `Parsing` for lexer and parser faults;
- `Variable`, `Property` and `Method` for names that cannot be resolved;
- `Return` and `Cancel`, which are control signals rather than errors.

The model (module `Jexl`, file `jexl_exception.dfy`) covers how an exception is built and how its message is composed:
- Construction unwraps one reflective wrapper from the cause and merges the ambient location with the lexer's or parser's position.
- The message is the location text, an optional debugger excerpt, a space, the detail text for the exception's kind, and an optional `" caused by null operand"` annotation.
- The annotation depends on the *identity* of the cause's message. It is added only when that message is the `NULL_OPERAND` reference itself. A different string with the same content, `"jexl.null"`, does not trigger it.
- For the two parser kinds, the detail text shows either the whole expression (under 15 characters) or a window of it around the fault's column.

Every Java subclass constructor is a named constructor of one class, `JexlException`, whose fields are `const` (they are `final` in the source). A `Kind` datatype says which subclass an object is. A Java `null` is `None`.

Several parts of the source are imperative and stay imperative here:
- `parserError` updates the locals `begin` and `end` step by step.
- `getMessage` appends to a builder.
- `getInfo` writes the debugger's offsets into the caller's array.

`ParserError`, `DetailedMessage` and `GetMessage` are proved equal to the specification functions `ParserErrorText`, `Detail` and `Message`. The ensures clauses of `GetInfo` give the excerpt it returns and the array's new contents. The properties are lemmas about those functions, in module `JexlProperties`. That module also holds end-to-end client methods, which build an exception and read back its message or accessors.

**`ASTIdentifierAccess`** is the syntax node for a member key (`x.name`, `x.0`). `setIdentifier` stores the raw text. It also tries `Integer.valueOf` on that text and stores `null` if that throws. `getIdentifier` returns the integer if there is one, otherwise the text.

This part is modelled in module `Parser` (`identifier_access.dfy`) as a class with two mutable fields. Its invariant is that the integer field is always the parse of the name.

`Integer.valueOf` and `Integer.toString` are JDK code that this model does not include. Module `JavaInt` (`java_int.dfy`) states them as specification functions: the accepted language is an optional sign, then one or more digits, with a value in the 32-bit range. A round-trip lemma connects the two.

Two behaviours of the code are worth stating up front:
- **The excerpt window.** `parserError` computes `end = column + 10` before it decrements `begin` (`JexlException.java:104-110`). So the window is 20 characters wide in the middle of the text, and up to 29 characters wide near its start.
- **Messages that throw.** `getMessage` can throw for the parser kinds. `parserError` dereferences the location (line 104) and calls `substring` (line 116), and both can fail. The model states these conditions as the preconditions `DetailDefined` and `ParserErrorDefined`. `WindowBounds` proves exactly which columns avoid the exception: those from -20 to ten past the end of the text.

## Model

| member | source | states |
|---|---|---|
| JavaInt.ValueOf | src/main/java/org/apache/commons/jexl3/parser/ASTIdentifierAccess.java:37 | `Integer.valueOf` succeeds only with a 32-bit value, and only on text that starts with a digit or a sign |
| JavaInt.DecimalString | src/main/java/org/apache/commons/jexl3/JexlException.java:394-396 | `StringBuilder.append(int)` writes a `-` exactly for a negative number, followed by one or more decimal digits |
| JavaInt.DigitsRoundTrip | src/main/java/org/apache/commons/jexl3/JexlException.java:394-396 | the digits `StringBuilder.append(int)` writes for a natural number are a numeral whose value is that number (induction) |
| JavaInt.DigitsCanonical | src/main/java/org/apache/commons/jexl3/JexlException.java:394-396 | the digits written for a number are the shortest ones: a single digit, or no leading zero (induction) |
| JavaInt.DecimalRoundTrip | src/main/java/org/apache/commons/jexl3/JexlException.java:394-396 | reading back the decimal text of any 32-bit int with `Integer.valueOf` gives the same int |
| JavaInt.OutOfRangeRejected | src/main/java/org/apache/commons/jexl3/parser/ASTIdentifierAccess.java:37-39 | the decimal text of any int outside the 32-bit range, such as "2147483648", is rejected |
| JavaInt.NumeralLowerBound | src/main/java/org/apache/commons/jexl3/parser/ASTIdentifierAccess.java:37 | a numeral without a leading zero is worth at least 10^(length-1) (induction) |
| JavaInt.LongNumeralsOverflow | src/main/java/org/apache/commons/jexl3/parser/ASTIdentifierAccess.java:37-39 | eleven or more digits without a leading zero, such as "99999999999", are rejected with or without a sign |
| JavaInt.ValueOfExamples | src/main/java/org/apache/commons/jexl3/parser/ASTIdentifierAccess.java:36-40 | "007" parses to 7 and "+42" to 42; "", "-" and "x1" are rejected |
| Jexl.NodeInfo | src/main/java/org/apache/commons/jexl3/JexlException.java:59 | an exception raised at a node takes the node's `jexlInfo()`; without a node the location is null |
| Jexl.JexlException.WithInfo | src/main/java/org/apache/commons/jexl3/JexlException.java:68-72 | stores the location and message, stores the cause unwrapped once, and leaves `mark` null |
| Jexl.JexlException.AtNode | src/main/java/org/apache/commons/jexl3/JexlException.java:48-60 | the location is the node's `jexlInfo()`, or null without a node; the cause is unwrapped; `mark` is null |
| Jexl.JexlException.Tokenization | src/main/java/org/apache/commons/jexl3/JexlException.java:131-133 | the location is the merge of the ambient info with the lexer's position; the message is the expression; the lexer fault is the cause |
| Jexl.JexlException.Parsing | src/main/java/org/apache/commons/jexl3/JexlException.java:176-178 | as for `Tokenization`, with the parser's position and fault |
| Jexl.JexlException.Variable | src/main/java/org/apache/commons/jexl3/JexlException.java:221-223 | stores the variable name with a null cause |
| Jexl.JexlException.Property | src/main/java/org/apache/commons/jexl3/JexlException.java:248-260 | covers both constructors: stores the property name, with the cause unwrapped, or null for the two-argument form |
| Jexl.JexlException.MethodAtNode | src/main/java/org/apache/commons/jexl3/JexlException.java:286-288 | stores the method name at the node's location, with the cause unwrapped |
| Jexl.JexlException.MethodAtInfo | src/main/java/org/apache/commons/jexl3/JexlException.java:296-298 | stores the method name at the given location, with the cause unwrapped |
| Jexl.JexlException.Return | src/main/java/org/apache/commons/jexl3/JexlException.java:327-330 | carries the given value and has a null cause |
| Jexl.JexlException.Cancel | src/main/java/org/apache/commons/jexl3/JexlException.java:349-351 | the message is "execution cancelled" and the cause is null |
| Jexl.JexlException.GetExpression | src/main/java/org/apache/commons/jexl3/JexlException.java:155-162 | the detail text of `Tokenization`/`Parsing` is `parserError` applied to the returned expression, with prefix "tokenization" or "parsing" |
| Jexl.JexlException.GetVariable | src/main/java/org/apache/commons/jexl3/JexlException.java:228-235 | the detail text is "undefined variable " followed by the returned name |
| Jexl.JexlException.GetProperty | src/main/java/org/apache/commons/jexl3/JexlException.java:265-272 | the detail text is "inaccessible or unknown property " followed by the returned name |
| Jexl.JexlException.GetMethod | src/main/java/org/apache/commons/jexl3/JexlException.java:303-310 | the detail text is "unknown, ambiguous or inaccessible method " followed by the returned name |
| Jexl.JexlException.GetValue | src/main/java/org/apache/commons/jexl3/JexlException.java:335-337 | returns the value the `Return` kind carries |
| Jexl.JexlException.ParserError | src/main/java/org/apache/commons/jexl3/JexlException.java:103-118 | the step-by-step `begin`/`end` updates give `ParserErrorText`, that is, the clamped window of the declarative definition |
| Jexl.JexlException.DetailedMessage | src/main/java/org/apache/commons/jexl3/JexlException.java:93-95 | dispatching on the kind gives `Detail()`: the raw message for the base class, `Return` and `Cancel`, and the overrides at lines 160, 205, 233, 270 and 308 otherwise |
| Jexl.JexlException.GetInfo | src/main/java/org/apache/commons/jexl3/JexlException.java:364-374 | returns the debugger's excerpt of `mark`, or "" when debugging fails; on success it writes the start and end offsets into `offsets[0]` and `offsets[1]`, and only when the array is non-null with length at least 2; every other element is unchanged |
| Jexl.JexlException.GetMessage | src/main/java/org/apache/commons/jexl3/JexlException.java:386-408 | the successive appends produce `Message(env)`: location text, excerpt segment, a space, the detail text, and the null-operand suffix |
| Jexl.Unwrap | src/main/java/org/apache/commons/jexl3/JexlException.java:79-87 | both wrapper kinds yield their inner throwable, which may be null; anything else, null included, passes through |
| JexlProperties.UnwrapOnlyOnce | src/main/java/org/apache/commons/jexl3/JexlException.java:79-87 | a doubly wrapped fault still yields a wrapper |
| Jexl.TokenizationMerge | src/main/java/org/apache/commons/jexl3/JexlException.java:141-150 | without a fault the ambient info is returned unchanged, even when it is null; with a fault, its line and column are used, with the ambient name or "" |
| Jexl.ParsingMerge | src/main/java/org/apache/commons/jexl3/JexlException.java:186-195 | the same three cases for the parser's fault |
| JexlProperties.MergesAgree | src/main/java/org/apache/commons/jexl3/JexlException.java:186-195 | `Parsing.merge` equals `Tokenization.merge` whenever the two faults report the same position |
| JexlProperties.MergeExample | src/main/java/org/apache/commons/jexl3/JexlException.java:146-148 | ambient ("a.jexl", 1, 1) merged with a fault at 5:9 gives ("a.jexl", 5, 9) |
| JexlProperties.WindowBounds | src/main/java/org/apache/commons/jexl3/JexlException.java:104-116 | `0 <= begin` and `end <= length` always hold; `begin <= end`, so that `substring` does not throw, holds exactly when `-20 <= column <= length + 10` |
| JexlProperties.WindowFullWidth | src/main/java/org/apache/commons/jexl3/JexlException.java:104-116 | when `10 <= column` and `column + 10 <= length`, the window is exactly 20 characters |
| JexlProperties.WindowShowsColumn | src/main/java/org/apache/commons/jexl3/JexlException.java:104-116 | a column inside the text lies inside the window, and the window is always under 30 characters |
| JexlProperties.ShortExpressionShownWhole | src/main/java/org/apache/commons/jexl3/JexlException.java:111-113 | an expression under 15 characters gives `prefix + " error in '" + expr + "'"`, for any column |
| JexlProperties.LongExpressionWindowed | src/main/java/org/apache/commons/jexl3/JexlException.java:104-116 | an expression of 15 or more characters gives `prefix + " error near '... " + expr[b..e] + " ...'"`, with `b = max(0, c-10)` and `e = min(length, c+20 if c < 10 else c+10)` |
| JexlProperties.ParserErrorBounded | src/main/java/org/apache/commons/jexl3/JexlException.java:111-117 | the parser detail text is at most 51 characters longer than its prefix, however long the source is |
| JexlProperties.MessageLayout | src/main/java/org/apache/commons/jexl3/JexlException.java:388-406 | the message is the location text, then the excerpt segment when the debugger succeeds, then " " + detail + suffix; without the debugger, only the segment is missing |
| JexlProperties.MessageEndsWithDetail | src/main/java/org/apache/commons/jexl3/JexlException.java:401-406 | every message ends with a space, the detail text and the suffix |
| JexlProperties.SuffixFollowsCause | src/main/java/org/apache/commons/jexl3/JexlException.java:403-406 | the cause changes the message only by appending " caused by null operand" |
| JexlProperties.NullOperandByIdentity | src/main/java/org/apache/commons/jexl3/JexlException.java:403-406 | the `NULL_OPERAND` reference adds " caused by null operand"; a distinct string with the content "jexl.null" gives the same message as no cause |
| JexlProperties.MessageNeedsOnlyNullRendering | src/main/java/org/apache/commons/jexl3/JexlException.java:68-72 | because `mark` is always null, the message depends on the debugger only through its answer for null |
| JexlProperties.UnknownVariableReport | src/main/java/org/apache/commons/jexl3/JexlException.java:221-235 | an unknown variable with no node, reported by a failing debugger, reads exactly " undefined variable " followed by the name |
| JexlProperties.UnknownVariableMessage | src/main/java/org/apache/commons/jexl3/JexlException.java:386-408 | an unknown variable with no location, no excerpt and no cause reads exactly " undefined variable " followed by the name |
| JexlProperties.NullOperandReport | src/main/java/org/apache/commons/jexl3/JexlException.java:386-408 | the same property fault gives the message with the suffix when the cause's message is the sentinel reference, and without it when it is a look-alike string |
| JexlProperties.AccessorsReturnConstructorText | src/main/java/org/apache/commons/jexl3/JexlException.java:221-310 | `getVariable`, `getProperty`, `getMethod` and `getExpression` each return the exact string given to the constructor |
| JexlProperties.ReturnCarriesValue | src/main/java/org/apache/commons/jexl3/JexlException.java:327-337 | `getValue` returns exactly the constructor's value; the detail text is the raw message; the cause is null |
| JexlProperties.CancelDetail | src/main/java/org/apache/commons/jexl3/JexlException.java:349-351 | the detail text is "execution cancelled" and the cause is null |
| JexlProperties.ShortTokenizationReport | src/main/java/org/apache/commons/jexl3/JexlException.java:131-162 | a short expression that fails to tokenize is reported as the lexer's location followed by " tokenization error in '<expr>'" |
| Parser.IdentifierAccess.constructor | src/main/java/org/apache/commons/jexl3/parser/ASTIdentifierAccess.java:23-28 | both fields start null, which satisfies the invariant |
| Parser.IdentifierAccess.SetIdentifier | src/main/java/org/apache/commons/jexl3/parser/ASTIdentifierAccess.java:34-41 | the new state is the given name verbatim and its `Integer.valueOf`, or null where that throws; nothing of the old state survives |
| Parser.IdentifierAccess.GetIdentifier | src/main/java/org/apache/commons/jexl3/parser/ASTIdentifierAccess.java:43-45 | under the invariant, the key is the int value of the name if it parses, otherwise the name, and null only without a name |
| Parser.IdentifierAccess.GetName | src/main/java/org/apache/commons/jexl3/parser/ASTIdentifierAccess.java:47-49 | the name is null exactly when the key is null |
| Parser.KeyOf | src/main/java/org/apache/commons/jexl3/parser/ASTIdentifierAccess.java:36-44 | the key is null exactly when the name is; it is `Index(n)` if and only if the name parses to `n`, and the name itself if and only if it does not parse |
| Parser.DecimalNamesResolveToIndex | src/main/java/org/apache/commons/jexl3/parser/ASTIdentifierAccess.java:37 | the decimal text of any 32-bit int resolves to that int |
| Parser.FreshNode | src/main/java/org/apache/commons/jexl3/parser/ASTIdentifierAccess.java:23-24 | before any `setIdentifier`, `getName()` and `getIdentifier()` are both null |
| Parser.SetIdentifierSequence | src/main/java/org/apache/commons/jexl3/parser/ASTIdentifierAccess.java:34-45 | after "007", the name stays "007" and the key is 7; after a later "abc", the key is "abc" and no stale integer is left; "99999999999" resolves to its text |

## Left out

- JavaInt.ValueOf: accepts only the ASCII digits `0`-`9`. `Integer.parseInt` also accepts every other Unicode decimal digit (`Character.digit`), and the model does not list those.
- Jexl.JexlException.ParserError: integers are unbounded. The source's `column + 10` and `column - 10` would wrap around for a column within 20 of the 32-bit limits, and no real column comes that close. Strings here are sequences of Unicode characters, while Java's `length()`, `substring` and `getColumn()` count UTF-16 code units. So for an expression holding characters outside the Basic Multilingual Plane, the 15-character threshold, the window and the column all differ from the source. Eight U+1F600 emoji are 16 code units in Java, which gets the windowed form, but 8 characters here, which gets the whole-expression form. A Java `substring` can also split a surrogate pair, which no string here can hold. The parser-kind detail of `Jexl.JexlException.GetMessage` inherits this difference.
- Jexl.JexlException.GetMessage: the `NullPointerException` thrown when a parser kind has no location, and the `StringIndexOutOfBoundsException` thrown when the window is reversed, are preconditions (`DetailDefined`) rather than error results.
- Null strings passed as a variable, property or method name or as a message are not modelled. Java would print them as "null".
- A cause that is itself a `JexlException` is reduced to what its `getMessage()` returns (`Msg`). That message is a freshly built string, so it is never the sentinel.
- The `Debugger`'s rendering of nodes, `JexlInfo.toString()` and `JexlNode.jexlInfo()` are not part of this model. They enter as the `Collaborators` functions and as the `Node` datatype's `jexlInfo` field.
- Throwable machinery is left out: stack traces, `transient` fields and serialization. Only the stored message, cause and location matter to the message.
- The interpreter code that catches `Return` and `Cancel`, and the cross-thread cancellation flag, are not part of this model.
- `ASTIdentifierAccess.jjtAccept` and the parser constructors' node ids are visitor and parser plumbing, and are left out.
