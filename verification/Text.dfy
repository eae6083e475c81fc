/** The string normalisation the service catalog relies on, over the Latin-1 part of Go's tables:
    white space is what unicode.IsSpace accepts below U+0100, case folding is ASCII. */
module Text {

  predicate IsSpace(c: char) {
    c in {'\t', '\n', '\U{000B}', '\U{000C}', '\r', ' ', '\U{0085}', '\U{00A0}'}
  }

  function LowerChar(c: char): char {
    if 'A' <= c <= 'Z' then ((c as int) + 32) as char else c
  }

  function ToLower(s: string): (lower: string)
    ensures |lower| == |s|
    ensures forall i :: 0 <= i < |s| ==> lower[i] == LowerChar(s[i])
  {
    if s == [] then [] else [LowerChar(s[0])] + ToLower(s[1..])
  }

  function TrimLeft(s: string): string {
    if s != [] && IsSpace(s[0]) then TrimLeft(s[1..]) else s
  }

  function TrimRight(s: string): string {
    if s != [] && IsSpace(s[|s| - 1]) then TrimRight(s[..|s| - 1]) else s
  }

  function TrimSpace(s: string): string {
    TrimRight(TrimLeft(s))
  }

  predicate IsBlank(s: string) {
    forall c :: c in s ==> IsSpace(c)
  }

  lemma {:induction false} BlankTrimsAway(s: string)
    ensures IsBlank(s) <==> TrimSpace(s) == ""
  {
    if s != [] && IsSpace(s[0]) {
      BlankTrimsAway(s[1..]);
      assert s == [s[0]] + s[1..];
    } else if s != [] {
      var r := TrimRight(s);
      TrimRightKeepsFirst(s);
    }
  }

  lemma {:induction false} TrimRightKeepsFirst(s: string)
    requires s != [] && !IsSpace(s[0])
    ensures TrimRight(s) != [] && TrimRight(s)[0] == s[0]
  {
    if IsSpace(s[|s| - 1]) { TrimRightKeepsFirst(s[..|s| - 1]); }
  }

  function TrimLower(s: string): string {
    TrimSpace(ToLower(s))
  }

  /** The shape every stored service name has: a lower-case letter, then letters, digits and hyphens. */
  predicate IsAlias(s: string) {
    s != [] && 'a' <= s[0] <= 'z' &&
    forall i :: 1 <= i < |s| ==> 'a' <= s[i] <= 'z' || '0' <= s[i] <= '9' || s[i] == '-'
  }

  lemma AliasIsTrimmedLower(s: string)
    requires IsAlias(s)
    ensures TrimLower(s) == s
  {
    assert ToLower(s) == s;
    assert !IsSpace(s[0]) && !IsSpace(s[|s| - 1]);
  }
}
