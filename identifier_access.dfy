/**
 * `org.apache.commons.jexl3.parser.ASTIdentifierAccess`: the key of a member access
 * (`x.name` or `x.0`), kept both as the raw text and, when that text is a Java `int`
 * literal, as the integer.
 */
module Parser {
  import opened Wrappers
  import JavaInt

  /** What `getIdentifier()` returns when not `null`: an `Integer` or the `String` name. */
  datatype Key = Index(index: int) | Name(name: string)

  /**
   * The key a node set to `id` resolves to: `null` only for a `null` id, the int value
   * when `id` parses, and the text itself when it does not.
   */
  function KeyOf(id: Option<string>): (r: Option<Key>)
    ensures r.None? <==> id.None?
    ensures forall n :: r == Some(Index(n)) <==> id.Some? && JavaInt.ValueOf(id.value) == Some(n)
    ensures id.Some? ==> (r == Some(Name(id.value)) <==> JavaInt.ValueOf(id.value).None?)
  {
    match id
    case None => None
    case Some(s) =>
      match JavaInt.ValueOf(s)
      case Some(n) => Some(Index(n))
      case None => Some(Name(s))
  }

  class IdentifierAccess {
    var name: Option<string>
    var identifier: Option<int>

    /** `identifier` is always the parse of `name`, and `null` when `name` does not parse. */
    ghost predicate Valid()
      reads this
    {
      identifier == if name.Some? then JavaInt.ValueOf(name.value) else None
    }

    /** Both fields start out `null`; the node id belongs to `JexlNode` and is not modelled. */
    constructor ()
      ensures Valid()
      ensures name == None && identifier == None
    {
      name := None;
      identifier := None;
    }

    /**
     * `setIdentifier(id)`: keeps `id` verbatim and its `Integer.valueOf`, or `null` where
     * that throws `NumberFormatException` (a `null` id included). Nothing of the earlier
     * state survives.
     */
    method SetIdentifier(id: Option<string>)
      modifies this
      ensures Valid()
      ensures name == id
      ensures identifier == if id.Some? then JavaInt.ValueOf(id.value) else None
    {
      name := id;
      if id.Some? && JavaInt.ValueOf(id.value).Some? {
        identifier := JavaInt.ValueOf(id.value);
      } else {
        identifier := None;
      }
    }

    /** `getIdentifier()`: the integer if there is one, otherwise the name. */
    function GetIdentifier(): (key: Option<Key>)
      reads this
      requires Valid()
      ensures key == KeyOf(name)
    {
      if identifier.Some? then Some(Index(identifier.value))
      else if name.Some? then Some(Name(name.value))
      else None
    }

    /** `getName()`: the raw text; it is `null` exactly when the key is. */
    function GetName(): (n: Option<string>)
      reads this
      ensures Valid() ==> (n.None? <==> GetIdentifier().None?)
    {
      name
    }
  }

  /** Every int written the way `Integer.toString` writes it resolves to that int. */
  lemma DecimalNamesResolveToIndex(n: int)
    requires JavaInt.InRange(n)
    ensures KeyOf(Some(JavaInt.DecimalString(n))) == Some(Index(n))
  {
    JavaInt.DecimalRoundTrip(n);
  }

  /** Before any `setIdentifier`, name and key are both `null`. */
  method FreshNode() returns (name: Option<string>, key: Option<Key>)
    ensures name == None && key == None
  {
    var node := new IdentifierAccess();
    name := node.GetName();
    key := node.GetIdentifier();
  }

  /**
   * "007" keeps its text but resolves to 7; a later "abc" leaves no stale integer behind;
   * "99999999999" does not fit an int and resolves to its text.
   */
  method SetIdentifierSequence()
    returns (name1: Option<string>, key1: Option<Key>, key2: Option<Key>, stale: Option<int>, key3: Option<Key>)
    ensures name1 == Some("007") && key1 == Some(Index(7))
    ensures key2 == Some(Name("abc")) && stale == None
    ensures key3 == Some(Name("99999999999"))
  {
    JavaInt.ValueOfExamples();
    JavaInt.LongNumeralsOverflow("99999999999");
    assert !JavaInt.IsDigit("abc"[0]);
    var node := new IdentifierAccess();
    node.SetIdentifier(Some("007"));
    name1 := node.GetName();
    key1 := node.GetIdentifier();
    node.SetIdentifier(Some("abc"));
    key2 := node.GetIdentifier();
    stale := node.identifier;
    node.SetIdentifier(Some("99999999999"));
    key3 := node.GetIdentifier();
  }
}
