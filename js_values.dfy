/** The JavaScript values the adapter handles, the truthiness test it relies on
    (`!x`, `a && b`, `a || b`), property access on a value, and the
    ASCII part of `String.prototype.toLowerCase` / `toUpperCase`. */
module JsValues {

  datatype Option<+T> = None | Some(value: T)

  /** A JavaScript value. `Obj` keeps the order in which `Object.keys` lists
      the object's own keys beside the key/value map itself. */
  datatype Value =
    | Undefined
    | Null
    | Bool(b: bool)
    | Num(n: real)
    | Str(s: string)
    | Obj(keys: seq<string>, fields: map<string, Value>)

  /** JavaScript truthiness: `undefined`, `null`, `false`, `0` and `""` are falsy,
      every object is truthy. */
  predicate Truthy(v: Value) {
    match v
    case Undefined => false
    case Null => false
    case Bool(b) => b
    case Num(n) => n != 0.0
    case Str(s) => s != ""
    case Obj(_, _) => true
  }

  /** A value whose properties can be read without a TypeError. */
  predicate Readable(v: Value) {
    !v.Undefined? && !v.Null?
  }

  /** `Object.keys` of an object: every own key exactly once. */
  predicate KeysMatch(v: Value) {
    v.Obj? &&
    (forall i, j :: 0 <= i < j < |v.keys| ==> v.keys[i] != v.keys[j]) &&
    (forall k :: k in v.keys ==> k in v.fields) &&
    (forall k :: k in v.fields ==> k in v.keys)
  }

  /** `v[key]` on a value that is neither null nor undefined: the own field of
      an object, `undefined` for a missing field or a primitive. */
  function Get(v: Value, key: string): (r: Value)
    requires Readable(v)
    ensures v.Obj? && key in v.fields ==> r == v.fields[key]
    ensures !(v.Obj? && key in v.fields) ==> r == Undefined
  {
    if v.Obj? && key in v.fields then v.fields[key] else Undefined
  }

  predicate IsUpper(c: char) {
    'A' <= c <= 'Z'
  }

  function LowerChar(c: char): (r: char)
    ensures !IsUpper(r)
  {
    if IsUpper(c) then (c as int + 32) as char else c
  }

  predicate IsLower(c: char) {
    'a' <= c <= 'z'
  }

  function UpperChar(c: char): (r: char)
    ensures !IsLower(r)
  {
    if IsLower(c) then (c as int - 32) as char else c
  }

  /** `s.toLowerCase()` for ASCII letters: same length, each character lowered. */
  function ToLowerCase(s: string): (r: string)
    ensures |r| == |s|
    ensures forall i :: 0 <= i < |s| ==> r[i] == LowerChar(s[i])
  {
    if s == [] then [] else [LowerChar(s[0])] + ToLowerCase(s[1..])
  }

  /** `s.toUpperCase()` for ASCII letters: same length, each character raised. */
  function ToUpperCase(s: string): (r: string)
    ensures |r| == |s|
    ensures forall i :: 0 <= i < |s| ==> r[i] == UpperChar(s[i])
  {
    if s == [] then [] else [UpperChar(s[0])] + ToUpperCase(s[1..])
  }

  /** Lower-casing is idempotent, and a lower-cased string holds no upper-case letter. */
  lemma LowerCaseIdempotent(s: string)
    ensures ToLowerCase(ToLowerCase(s)) == ToLowerCase(s)
    ensures forall i :: 0 <= i < |ToLowerCase(s)| ==> !IsUpper(ToLowerCase(s)[i])
  {
  }

  /** Two strings that differ only in the case of their ASCII letters lower-case alike. */
  lemma LowerCaseIgnoresCase(s: string, t: string)
    requires |s| == |t|
    requires forall i :: 0 <= i < |s| ==> LowerChar(s[i]) == LowerChar(t[i])
    ensures ToLowerCase(s) == ToLowerCase(t)
  {
  }

  /** `pat` spelled by `s` from position `i` on. */
  predicate OccursAt(s: string, pat: string, i: nat) {
    i + |pat| <= |s| && s[i..i + |pat|] == pat
  }

  /** `s.includes(pat)` (and `s.match(pat)` for a pattern without metacharacters):
      some window of `s` spells `pat`. */
  function Contains(s: string, pat: string): (r: bool)
    ensures r <==> exists i: nat :: OccursAt(s, pat, i)
    decreases |s|
  {
    if |s| < |pat| then false
    else if s[..|pat|] == pat then
      assert OccursAt(s, pat, 0);
      true
    else
      assert forall i: nat :: OccursAt(s[1..], pat, i) <==> OccursAt(s, pat, i + 1);
      assert !OccursAt(s, pat, 0);
      assert forall i: nat :: OccursAt(s, pat, i) ==> i == 0 || OccursAt(s[1..], pat, i - 1);
      Contains(s[1..], pat)
  }
}
