/** Small helpers shared by every module: an Option type and the few
    JavaScript and Python value rules the rest of the model relies on. */
module Common {

  datatype Option<T> = None | Some(value: T)

  /** JavaScript truthiness of a possibly-undefined string:
      `undefined`, `null` and `""` are falsy, every other string is truthy. */
  predicate Truthy(s: Option<string>) {
    s.Some? && s.value != ""
  }

  /** JavaScript `s || fallback` where `s` is a possibly-undefined string. */
  function OrElse(s: Option<string>, fallback: string): string {
    if Truthy(s) then s.value else fallback
  }

  /** Reading a property of a JSON object whose values are strings. */
  function Get(m: map<string, string>, key: string): Option<string> {
    if key in m then Some(m[key]) else None
  }

  /** Upper-casing of one character; only the ASCII letters are mapped. */
  function ToUpperChar(c: char): char {
    if 'a' <= c <= 'z' then (c as int - 32) as char else c
  }

  /** Lower-casing of one character; only the ASCII letters are mapped. */
  function ToLowerChar(c: char): char {
    if 'A' <= c <= 'Z' then (c as int + 32) as char else c
  }

  /** Lower-casing of a string, character by character. */
  function Lower(s: string): (r: string)
    ensures |r| == |s|
    ensures forall i :: 0 <= i < |s| ==> r[i] == ToLowerChar(s[i])
  {
    if s == [] then [] else [ToLowerChar(s[0])] + Lower(s[1..])
  }

  /** Lower-casing twice is lower-casing once. */
  lemma LowerIdempotent(s: string)
    ensures Lower(Lower(s)) == Lower(s)
  {
  }

  /** A string without upper-case letters is its own lower-casing. */
  lemma LowerKeepsLowerCase(s: string)
    requires forall c :: c in s ==> !('A' <= c <= 'Z')
    ensures Lower(s) == s
  {
    assert forall i :: 0 <= i < |s| ==> s[i] in s;
  }

  /** The first `@` at or after `from`, or `|s|`. */
  function NextAt(s: string, from: nat): (r: nat)
    requires from <= |s|
    ensures from <= r <= |s|
    ensures forall k :: from <= k < r ==> s[k] != '@'
    ensures r < |s| ==> s[r] == '@'
    decreases |s| - from
  {
    if from == |s| || s[from] == '@' then from else NextAt(s, from + 1)
  }

  function Min(a: int, b: int): int {
    if a <= b then a else b
  }
}
