/** The string operations the Naryo client relies on. */
module Strings {

  /** White space as strings.TrimSpace understands it. */
  predicate IsSpace(c: char) {
    c in {'\t', '\n', '\U{0B}', '\U{0C}', '\r', ' ', '\U{85}', '\U{A0}', '\U{1680}', '\U{2028}', '\U{2029}',
          '\U{202F}', '\U{205F}', '\U{3000}'} || '\U{2000}' <= c <= '\U{200A}'
  }

  function TrimLeft(s: string): string {
    if s != "" && IsSpace(s[0]) then TrimLeft(s[1..]) else s
  }

  function TrimRight(s: string): string {
    if s != "" && IsSpace(s[|s| - 1]) then TrimRight(s[..|s| - 1]) else s
  }

  function TrimSpace(s: string): string { TrimRight(TrimLeft(s)) }

  /** No white space at either end. */
  predicate Trimmed(s: string) { s != "" ==> !IsSpace(s[0]) && !IsSpace(s[|s| - 1]) }

  lemma {:induction false} TrimLeftTrims(s: string)
    ensures var t := TrimLeft(s); t != "" ==> !IsSpace(t[0])
  {
    if s != "" && IsSpace(s[0]) { TrimLeftTrims(s[1..]); }
  }

  lemma {:induction false} TrimRightTrims(s: string)
    ensures var t := TrimRight(s); t <= s && (t != "" ==> !IsSpace(t[|t| - 1]))
  {
    if s != "" && IsSpace(s[|s| - 1]) { TrimRightTrims(s[..|s| - 1]); }
  }

  lemma TrimSpaceTrims(s: string)
    ensures Trimmed(TrimSpace(s))
    ensures Trimmed(s) ==> TrimSpace(s) == s
  {
    TrimLeftTrims(s);
    TrimRightTrims(TrimLeft(s));
  }

  ghost predicate AllSpace(s: string) { forall c :: c in s ==> IsSpace(c) }

  /** Trimming takes away white space at the ends and nothing else. */
  lemma TrimSpaceParts(s: string) returns (before: string, after: string)
    ensures s == before + TrimSpace(s) + after && AllSpace(before) && AllSpace(after)
  {
    before := TrimLeftParts(s);
    after := TrimRightParts(TrimLeft(s));
  }

  lemma {:induction false} TrimLeftParts(s: string) returns (before: string)
    ensures s == before + TrimLeft(s) && AllSpace(before)
  {
    before := "";
    if s != "" && IsSpace(s[0]) {
      before := TrimLeftParts(s[1..]);
      before := [s[0]] + before;
    }
  }

  lemma {:induction false} TrimRightParts(s: string) returns (after: string)
    ensures s == TrimRight(s) + after && AllSpace(after)
  {
    after := "";
    if s != "" && IsSpace(s[|s| - 1]) {
      after := TrimRightParts(s[..|s| - 1]);
      assert s == s[..|s| - 1] + [s[|s| - 1]];
      after := after + [s[|s| - 1]];
    }
  }

  function LowerChar(c: char): char {
    if 'A' <= c <= 'Z' then (c as int + 32) as char else c
  }

  /** Lower case, for ASCII letters. */
  function ToLower(s: string): string {
    if s == "" then "" else [LowerChar(s[0])] + ToLower(s[1..])
  }

  lemma {:induction false} ToLowerAt(s: string)
    ensures |ToLower(s)| == |s| && forall i :: 0 <= i < |s| ==> ToLower(s)[i] == LowerChar(s[i])
  {
    if s != "" { ToLowerAt(s[1..]); }
  }

  /** Each of the 26 capital letters becomes its small one, and every other character stays. */
  lemma LowerCharIs(c: char)
    ensures var big, small := "ABCDEFGHIJKLMNOPQRSTUVWXYZ", "abcdefghijklmnopqrstuvwxyz";
            if c in big then exists i :: 0 <= i < 26 && big[i] == c && small[i] == LowerChar(c) else LowerChar(c) == c
  {
    var big, small := "ABCDEFGHIJKLMNOPQRSTUVWXYZ", "abcdefghijklmnopqrstuvwxyz";
    if 'A' <= c <= 'Z' {
      var i := c as int - 'A' as int;
      assert big[i] == c && small[i] == LowerChar(c);
    }
  }

  lemma {:induction false} ToLowerConcat(s: string, t: string)
    ensures ToLower(s + t) == ToLower(s) + ToLower(t)
  {
    if s == "" {
      assert s + t == t;
    } else {
      ToLowerConcat(s[1..], t);
      assert (s + t)[1..] == s[1..] + t && (s + t)[0] == s[0];
      assert ToLower(s + t) == [LowerChar(s[0])] + (ToLower(s[1..]) + ToLower(t));
    }
  }

  lemma {:induction false} LowerTrimLeft(s: string)
    ensures TrimLeft(ToLower(s)) == ToLower(TrimLeft(s))
  {
    if s != "" && IsSpace(s[0]) { LowerTrimLeft(s[1..]); }
  }

  lemma {:induction false} LowerTrimRight(s: string)
    ensures TrimRight(ToLower(s)) == ToLower(TrimRight(s))
  {
    if s != "" {
      var before, c := s[..|s| - 1], s[|s| - 1];
      assert s == before + [c];
      ToLowerConcat(before, [c]);
      assert ToLower([c]) == [LowerChar(c)];
      if IsSpace(c) { LowerTrimRight(before); }
    }
  }

  lemma LowerTrimSpace(s: string)
    ensures TrimSpace(ToLower(s)) == ToLower(TrimSpace(s))
  {
    LowerTrimLeft(s);
    LowerTrimRight(TrimLeft(s));
  }

  /** Equal but for the case of letters. */
  ghost predicate SameLetters(s: string, t: string) {
    |s| == |t| && forall i :: 0 <= i < |s| ==> s[i] == t[i] || CaseOf(s[i], t[i]) || CaseOf(t[i], s[i])
  }

  ghost predicate CaseOf(big: char, small: char) { 'A' <= big <= 'Z' && small as int == big as int + 32 }

  lemma SameLettersIff(s: string, t: string)
    ensures ToLower(s) == ToLower(t) <==> SameLetters(s, t)
  {
    ToLowerAt(s);
    ToLowerAt(t);
    if ToLower(s) == ToLower(t) {
      forall i | 0 <= i < |s| ensures s[i] == t[i] || CaseOf(s[i], t[i]) || CaseOf(t[i], s[i]) {
        assert LowerChar(s[i]) == ToLower(s)[i] == ToLower(t)[i] == LowerChar(t[i]);
      }
    }
  }

  ghost predicate NulFree(s: string) { '\0' !in s }

  lemma FirstNulAt(s: string, rest: string)
    requires NulFree(s)
    ensures var k := s + "\0" + rest;
            k[|s|] == '\0' && forall i :: 0 <= i < |s| ==> k[i] != '\0'
  {
    var k := s + "\0" + rest;
    assert forall i :: 0 <= i < |s| ==> k[i] == s[i];
  }

  /** A NUL-free head is determined by the text up to the first NUL. */
  lemma SplitAtNul(s: string, r: string, t: string, u: string)
    requires NulFree(s) && NulFree(t) && s + "\0" + r == t + "\0" + u
    ensures s == t && r == u
  {
    FirstNulAt(s, r);
    FirstNulAt(t, u);
    var k := s + "\0" + r;
    assert |s| == |t|;
    assert s == k[..|s|] && t == k[..|t|];
    assert r == k[|s| + 1..] && u == k[|t| + 1..];
  }

  predicate HasPrefix(s: string, p: string) { p <= s }

  predicate HasSuffix(s: string, t: string) { |t| <= |s| && s[|s| - |t|..] == t }

  predicate Contains(s: string, t: string) {
    t <= s || (s != "" && Contains(s[1..], t))
  }

  /** Removes one trailing slash. */
  function DropSlash(s: string): string {
    if s != "" && s[|s| - 1] == '/' then s[..|s| - 1] else s
  }

  lemma DropSlashIs(s: string)
    ensures DropSlash(s + "/") == s && (s != "" && s[|s| - 1] != '/' ==> DropSlash(s) == s)
  {
    assert (s + "/")[..|s|] == s;
  }
}
