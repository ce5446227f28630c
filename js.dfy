/** JavaScript values as the app's TypeScript code sees them in JSON payloads. */
module Js {

  datatype Option<T> = None | Some(value: T)

  /** A string-valued JSON property: missing (`undefined`), `null`, or a string. */
  datatype Field = Absent | Null | Val(s: string)

  /** JavaScript truthiness of such a property: only a non-empty string is truthy. */
  predicate Truthy(f: Field) {
    f.Val? && f.s != ""
  }

  /** `a || b` */
  function Or(a: Field, b: Field): Field {
    if Truthy(a) then a else b
  }

  /** `a || "default"`, whose result is always a string. */
  function OrDefault(a: Field, default: string): string {
    if Truthy(a) then a.s else default
  }

  /** The ASCII part of `String.prototype.toUpperCase` on one character. */
  function UpperChar(c: char): char {
    if 'a' <= c <= 'z' then (c as int - 32) as char else c
  }

  predicate IsUpper(s: string) {
    forall i :: 0 <= i < |s| ==> !('a' <= s[i] <= 'z')
  }

  function ToUpper(s: string): string {
    if s == [] then [] else [UpperChar(s[0])] + ToUpper(s[1..])
  }

  /** Upper-casing works character by character and keeps the length. */
  lemma {:induction false} ToUpperAt(s: string)
    ensures |ToUpper(s)| == |s|
    ensures forall i :: 0 <= i < |s| ==> ToUpper(s)[i] == UpperChar(s[i])
  {
    if s != [] {
      ToUpperAt(s[1..]);
    }
  }

  /** The result has no lower-case ASCII letter left, and upper-casing it again changes nothing. */
  lemma ToUpperIsUpper(s: string)
    ensures IsUpper(ToUpper(s))
    ensures ToUpper(ToUpper(s)) == ToUpper(s)
  {
    ToUpperAt(s);
    ToUpperAt(ToUpper(s));
  }

  /** `s?.toUpperCase()`: a string is upper-cased; `null` and `undefined` give `undefined`. */
  function UpperOpt(f: Field): (r: Field)
    ensures f.Val? ==> r == Val(ToUpper(f.s))
    ensures f.Val? ==> r.Val? && |r.s| == |f.s| && IsUpper(r.s)
    ensures !f.Val? ==> r == Absent
  {
    if f.Val? then
      ToUpperIsUpper(f.s);
      ToUpperAt(f.s);
      Val(ToUpper(f.s))
    else Absent
  }
}
