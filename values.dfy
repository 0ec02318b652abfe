/**
 * The Python values that end up in the merged status dict, with the two
 * pieces of Python semantics the merge depends on: truthiness (which drives
 * `or` and the cleanup of falsy keys) and `str` (which renders embed fields).
 */
module PyValues {
  import opened Wrappers
  import Decimal

  /**
   * A value stored in the merged dict: `None`, a number, a string, a chat
   * component object (a non-empty dict with a `text` key) or a list of
   * player or plugin names, where a list entry may be `None`.
   */
  datatype Value =
    | Null
    | Num(n: int)
    | Text(s: string)
    | Chat(text: string)
    | List(items: seq<Option<string>>)

  /** Python's `bool(v)`. */
  predicate Truthy(v: Value) {
    match v
    case Null => false
    case Num(n) => n != 0
    case Text(s) => s != ""
    case Chat(_) => true
    case List(items) => items != []
  }

  /** Python's `a or b`: the first operand if it is truthy, else the second. */
  function Or(a: Value, b: Value): Value {
    if Truthy(a) then a else b
  }

  function OptText(o: Option<string>): Value {
    match o
    case None => Null
    case Some(s) => Text(s)
  }

  function OptNum(o: Option<int>): Value {
    match o
    case None => Null
    case Some(n) => Num(n)
  }

  /** A list of names, every entry present. */
  function Names(names: seq<string>): (v: Value)
    ensures v.List? && |v.items| == |names|
    ensures forall i | 0 <= i < |names| :: v.items[i] == Some(names[i])
  {
    List(seq(|names|, i requires 0 <= i < |names| => Some(names[i])))
  }

  /** Python's `repr` of a list entry (quote escaping is not modelled). */
  function ItemRepr(o: Option<string>): string {
    match o
    case None => "None"
    case Some(s) => "'" + s + "'"
  }

  function JoinReprs(items: seq<Option<string>>): string {
    if items == [] then ""
    else if |items| == 1 then ItemRepr(items[0])
    else ItemRepr(items[0]) + ", " + JoinReprs(items[1..])
  }

  /** Python's `str(v)`, which the chat library applies to every field value. */
  function Str(v: Value): string {
    match v
    case Null => "None"
    case Num(n) => Decimal.IntToString(n)
    case Text(s) => s
    case Chat(text) => "{'text': '" + text + "'}"
    case List(items) => "[" + JoinReprs(items) + "]"
  }
}
