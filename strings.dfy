/** The few Python string operations the decoder relies on, on ASCII text. */
module Strings {

  predicate IsUpperChar(c: char) {
    'A' <= c <= 'Z'
  }

  predicate IsLowerChar(c: char) {
    'a' <= c <= 'z'
  }

  predicate IsDigit(c: char) {
    '0' <= c <= '9'
  }

  /** Python's `str.isupper()`: at least one cased character and no lower-case one. */
  predicate IsUpper(s: string) {
    UpperFrom(s, false)
  }

  /** `IsUpper` read left to right; `seen` records an upper-case letter so far. */
  predicate UpperFrom(s: string, seen: bool) {
    if s == [] then seen else !IsLowerChar(s[0]) && UpperFrom(s[1..], seen || IsUpperChar(s[0]))
  }

  /** The scan agrees with the definition by quantifiers. */
  lemma {:induction false} UpperFromMeans(s: string, seen: bool)
    ensures UpperFrom(s, seen) <==>
      (seen || exists k :: 0 <= k < |s| && IsUpperChar(s[k])) && forall k :: 0 <= k < |s| ==> !IsLowerChar(s[k])
  {
    if s != [] {
      UpperFromMeans(s[1..], seen || IsUpperChar(s[0]));
      assert forall k :: 0 < k < |s| ==> s[k] == s[1..][k - 1];
      if exists k :: 0 <= k < |s| && IsUpperChar(s[k]) {
        var k :| 0 <= k < |s| && IsUpperChar(s[k]);
        if k > 0 {
          assert IsUpperChar(s[1..][k - 1]);
        }
      }
    }
  }

  function LowerChar(c: char): (r: char)
    ensures !IsUpperChar(r)
    ensures !IsUpperChar(c) ==> r == c
    ensures IsUpperChar(c) ==> IsLowerChar(r)
  {
    if IsUpperChar(c) then (c as int + 32) as char else c
  }

  /** Python's `str.lower()`. */
  function Lower(s: string): (r: string)
    ensures |r| == |s| && forall k :: 0 <= k < |s| ==> r[k] == LowerChar(s[k])
  {
    if s == [] then [] else [LowerChar(s[0])] + Lower(s[1..])
  }

  /** Python's `str.replace(' ', '_')`. */
  function SpacesToUnderscores(s: string): (r: string)
    ensures |r| == |s| && forall k :: 0 <= k < |s| ==> r[k] == (if s[k] == ' ' then '_' else s[k])
  {
    if s == [] then [] else [if s[0] == ' ' then '_' else s[0]] + SpacesToUnderscores(s[1..])
  }

  /** `''.join(pieces)`. */
  function Concat(pieces: seq<string>): string {
    if pieces == [] then "" else Concat(pieces[..|pieces| - 1]) + pieces[|pieces| - 1]
  }

  /** `sep.join(pieces)`. */
  function Join(pieces: seq<string>, sep: string): string {
    if |pieces| <= 1 then Concat(pieces)
    else Join(pieces[..|pieces| - 1], sep) + sep + pieces[|pieces| - 1]
  }

  /** The characters `str.strip` removes from a field label: `\ / : * ? " < > |`. */
  predicate IsStripChar(c: char) {
    c == '\\' || c == '/' || c == ':' || c == '*' || c == '?' || c == '"' || c == '<' || c == '>' || c == '|'
  }

  function StripLeft(s: string): (r: string)
    ensures |r| <= |s| && r == s[|s| - |r|..]
    ensures r == [] || !IsStripChar(r[0])
    ensures forall k :: 0 <= k < |s| - |r| ==> IsStripChar(s[k])
  {
    if s != [] && IsStripChar(s[0]) then StripLeft(s[1..]) else s
  }

  function StripRight(s: string): (r: string)
    ensures |r| <= |s| && r == s[..|r|]
    ensures r == [] || !IsStripChar(r[|r| - 1])
    ensures forall k :: |r| <= k < |s| ==> IsStripChar(s[k])
  {
    if s != [] && IsStripChar(s[|s| - 1]) then StripRight(s[..|s| - 1]) else s
  }

  /** Python's `str.strip(StripChars)`: the longest run left after removing
      strip characters from both ends. */
  function Strip(s: string): (r: string)
    ensures r == [] || (!IsStripChar(r[0]) && !IsStripChar(r[|r| - 1]))
  {
    StripRight(StripLeft(s))
  }

  lemma {:induction false} ConcatSnoc(pieces: seq<string>, p: string)
    ensures Concat(pieces + [p]) == Concat(pieces) + p
  {
    assert (pieces + [p])[..|pieces|] == pieces;
  }

  /** Stripping a label whose ends are already kept changes nothing. */
  lemma StripKeeps(s: string)
    requires s == [] || (!IsStripChar(s[0]) && !IsStripChar(s[|s| - 1]))
    ensures Strip(s) == s
  {
  }
}
