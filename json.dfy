/**
 * Untyped JavaScript values as they come out of a parsed YAML configuration
 * file, together with the three pieces of JavaScript semantics the
 * configuration code relies on: reading a property (a missing key reads as
 * `undefined`), truthiness (`x || []`) and object spread (`{...a, ...b}`).
 */
module JsonValues {

  datatype Json =
    | Undefined
    | Null
    | Bool(b: bool)
    | Num(n: real)
    | Str(s: string)
    | Arr(elems: seq<Json>)
    | Obj(fields: map<string, Json>)

  /** `obj[key]`: a key that is not present reads as `undefined`. */
  function Lookup(fields: map<string, Json>, key: string): (v: Json)
    ensures key in fields ==> v == fields[key]
    ensures key !in fields ==> v == Undefined
  {
    if key in fields then fields[key] else Undefined
  }

  /** JavaScript truthiness; NaN is not a value of this model. */
  predicate Truthy(j: Json) {
    match j
    case Undefined => false
    case Null => false
    case Bool(b) => b
    case Num(n) => n != 0.0
    case Str(s) => s != ""
    case Arr(_) => true
    case Obj(_) => true
  }

  /** The decimal digit for `d`. */
  function Digit(d: nat): (c: char)
    requires d < 10
    ensures '0' <= c <= '9'
  {
    "0123456789"[d]
  }

  /** A non-empty string of decimal digits: the shape of an array index key. */
  predicate IsIndexKey(k: string) {
    |k| > 0 && forall c :: c in k ==> '0' <= c <= '9'
  }

  /** The property name JavaScript gives to index `i` of an array or string. */
  function IndexKey(i: nat): (k: string)
    ensures IsIndexKey(k)
  {
    if i < 10 then [Digit(i)] else IndexKey(i / 10) + [Digit(i % 10)]
  }

  /** The own enumerable properties of the elements of an array, keyed by index. */
  function IndexedFields(elems: seq<Json>): (m: map<string, Json>)
    ensures forall k :: k in m ==> IsIndexKey(k)
  {
    if |elems| == 0 then map[]
    else IndexedFields(elems[..|elems| - 1])[IndexKey(|elems| - 1) := elems[|elems| - 1]]
  }

  /** The one-character strings a string spreads into. */
  function Chars(s: string): (elems: seq<Json>)
    ensures |elems| == |s|
    ensures forall i :: 0 <= i < |s| ==> elems[i] == Str([s[i]])
  {
    if |s| == 0 then [] else Chars(s[..|s| - 1]) + [Str([s[|s| - 1]])]
  }

  /**
   * What `...j` contributes inside an object literal: the fields of an
   * object, the indexed elements of an array or characters of a string,
   * and nothing for `null`, `undefined`, booleans and numbers.
   */
  function SpreadFields(j: Json): (m: map<string, Json>)
    ensures j.Obj? ==> m == j.fields
    ensures !j.Obj? ==> forall k :: k in m ==> IsIndexKey(k)
    ensures !(j.Obj? || j.Arr? || j.Str?) ==> m == map[]
  {
    match j
    case Obj(fields) => fields
    case Arr(elems) => IndexedFields(elems)
    case Str(s) => IndexedFields(Chars(s))
    case _ => map[]
  }

  /** A property name made of letters cannot be an index key. */
  lemma NamedKeyIsNoIndex(key: string)
    requires |key| > 0 && 'a' <= key[0] <= 'z'
    ensures !IsIndexKey(key)
  {
    assert key[0] in key;
  }
}
