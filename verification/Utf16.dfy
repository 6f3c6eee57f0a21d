/** Strings as JavaScript has them: sequences of UTF-16 code units, so a surrogate half is a unit. */
module Utf16 {
  // A code unit is its number. Nothing below uses its upper bound, so none is imposed.
  type Unit = int
  type Text = seq<Unit>

  const LF: Unit := 0x0a
  const CR: Unit := 0x0d
  const SPACE: Unit := 0x20

  /** The class `\s` of a JavaScript regular expression, which is also what `trim` removes. */
  predicate IsSpace(u: Unit) {
    0x09 <= u <= 0x0d || u == 0x20 || u == 0xa0 || u == 0x1680 || 0x2000 <= u <= 0x200a ||
    u == 0x2028 || u == 0x2029 || u == 0x202f || u == 0x205f || u == 0x3000 || u == 0xfeff
  }

  predicate IsHighSurrogate(u: Unit) { 0xd800 <= u <= 0xdbff }

  predicate IsLowSurrogate(u: Unit) { 0xdc00 <= u <= 0xdfff }

  /** Offset `i` lies between the two halves of one character. */
  predicate InsidePair(s: Text, i: int) {
    0 < i < |s| && IsHighSurrogate(s[i - 1]) && IsLowSurrogate(s[i])
  }

  predicate At(s: Text, pattern: Text, i: int) {
    0 <= i <= |s| - |pattern| && s[i..i + |pattern|] == pattern
  }

  /** `indexOf`: the first occurrence at or after `from`, or -1. */
  function IndexOf(s: Text, pattern: Text, from: nat): (r: int)
    ensures r != -1 ==> from <= r && At(s, pattern, r)
    ensures forall i :: from <= i && (r == -1 || i < r) ==> !At(s, pattern, i)
    decreases |s| - from
  {
    if from + |pattern| > |s| then -1
    else if At(s, pattern, from) then from
    else IndexOf(s, pattern, from + 1)
  }

  function TrimStart(s: Text): (t: Text)
    ensures |t| <= |s| && t == s[|s| - |t|..]
    ensures t != [] ==> !IsSpace(t[0])
    ensures forall i :: 0 <= i < |s| - |t| ==> IsSpace(s[i])
  {
    if s != [] && IsSpace(s[0]) then TrimStart(s[1..]) else s
  }

  function TrimEnd(s: Text): (t: Text)
    ensures |t| <= |s| && t == s[..|t|]
    ensures t != [] ==> !IsSpace(t[|t| - 1])
    ensures forall i :: |t| <= i < |s| ==> IsSpace(s[i])
  {
    if s != [] && IsSpace(s[|s| - 1]) then TrimEnd(s[..|s| - 1]) else s
  }

  function Trim(s: Text): (t: Text)
    ensures |t| <= |s|
    ensures t != [] ==> !IsSpace(t[0]) && !IsSpace(t[|t| - 1])
    ensures t == [] <==> forall i :: 0 <= i < |s| ==> IsSpace(s[i])
  {
    var e := TrimEnd(s);
    assert forall i :: 0 <= i < |e| ==> e[i] == s[i];
    TrimStart(e)
  }

  lemma TrimInside(s: Text, u: Unit)
    requires u !in s
    ensures u !in Trim(s)
  {
    var e := TrimEnd(s);
    assert forall i :: 0 <= i < |e| ==> e[i] == s[i];
    assert forall i :: 0 <= i < |Trim(s)| ==> Trim(s)[i] == e[|e| - |Trim(s)| + i];
  }

  function Repeat(u: Unit, n: nat): (s: Text)
    ensures |s| == n && forall i :: 0 <= i < n ==> s[i] == u
  {
    seq(n, _ => u)
  }
}
