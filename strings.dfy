/** Python's built-in string operations that the scripts rely on:
    whitespace as `str.isspace` sees it, `strip()`, argument-less `split()`,
    `replace(old, new)` and `str(int)`. */
module Strings {

  /** The characters Python's `str.split()` and `str.strip()` treat as
      whitespace when called without arguments. */
  predicate IsWhitespace(c: char) {
    c == ' ' || ('\t' <= c <= '\r') || ('\U{1C}' <= c <= '\U{1F}')
    || c == '\U{85}' || c == '\U{A0}' || c == '\U{1680}'
    || ('\U{2000}' <= c <= '\U{200A}')
    || c == '\U{2028}' || c == '\U{2029}' || c == '\U{202F}'
    || c == '\U{205F}' || c == '\U{3000}'
  }

  predicate AllWhitespace(s: string) {
    forall i :: 0 <= i < |s| ==> IsWhitespace(s[i])
  }

  predicate NoWhitespace(s: string) {
    forall i :: 0 <= i < |s| ==> !IsWhitespace(s[i])
  }

  /** The first position from `i` on that holds no whitespace, or the end. */
  function SkipSpace(s: string, i: nat): (j: nat)
    requires i <= |s|
    ensures i <= j <= |s|
    ensures forall k :: i <= k < j ==> IsWhitespace(s[k])
    ensures j == |s| || !IsWhitespace(s[j])
    decreases |s| - i
  {
    if i < |s| && IsWhitespace(s[i]) then SkipSpace(s, i + 1) else i
  }

  /** The first position from `i` on that holds whitespace, or the end. */
  function SkipWord(s: string, i: nat): (j: nat)
    requires i <= |s|
    ensures i <= j <= |s|
    ensures forall k :: i <= k < j ==> !IsWhitespace(s[k])
    ensures j == |s| || IsWhitespace(s[j])
    decreases |s| - i
  {
    if i < |s| && !IsWhitespace(s[i]) then SkipWord(s, i + 1) else i
  }

  /** The start of the whitespace run that ends at position `j`. */
  function BackSpace(s: string, j: nat): (i: nat)
    requires j <= |s|
    ensures i <= j
    ensures forall k :: i <= k < j ==> IsWhitespace(s[k])
    ensures i == 0 || !IsWhitespace(s[i - 1])
    decreases j
  {
    if j > 0 && IsWhitespace(s[j - 1]) then BackSpace(s, j - 1) else j
  }

  /** A whitespace run followed by a non-whitespace character or the end
      is exactly what `SkipSpace` skips. */
  lemma SkipSpaceAt(s: string, i: nat, j: nat)
    requires i <= j <= |s|
    requires forall k :: i <= k < j ==> IsWhitespace(s[k])
    requires j == |s| || !IsWhitespace(s[j])
    ensures SkipSpace(s, i) == j
  {
  }

  lemma SkipWordAt(s: string, i: nat, j: nat)
    requires i <= j <= |s|
    requires forall k :: i <= k < j ==> !IsWhitespace(s[k])
    requires j == |s| || IsWhitespace(s[j])
    ensures SkipWord(s, i) == j
  {
  }

  /** Leading whitespace removed (`s.lstrip()`). */
  function TrimStart(s: string): (r: string)
    ensures |r| <= |s| && r == s[|s| - |r|..]
    ensures AllWhitespace(s[..|s| - |r|])
    ensures r == [] || !IsWhitespace(r[0])
  {
    var j := SkipSpace(s, 0);
    assert forall k :: 0 <= k < j ==> s[..j][k] == s[k];
    s[j..]
  }

  /** Trailing whitespace removed (`s.rstrip()`). */
  function TrimEnd(s: string): (r: string)
    ensures |r| <= |s| && r == s[..|r|]
    ensures AllWhitespace(s[|r|..])
    ensures r == [] || !IsWhitespace(r[|r| - 1])
  {
    var i := BackSpace(s, |s|);
    assert forall k :: 0 <= k < |s| - i ==> s[i..][k] == s[i + k];
    s[..i]
  }

  /** `s.strip()` */
  function Strip(s: string): string {
    TrimEnd(TrimStart(s))
  }

  /** The longest prefix of `s` that holds no whitespace. */
  function Token(s: string): (r: string)
    ensures |r| <= |s| && r == s[..|r|]
    ensures NoWhitespace(r)
    ensures |r| == |s| || IsWhitespace(s[|r|])
  {
    var j := SkipWord(s, 0);
    assert forall k :: 0 <= k < j ==> s[..j][k] == s[k];
    s[..j]
  }

  /** Every entry is a non-empty run of non-whitespace characters. */
  predicate Words(ws: seq<string>) {
    forall i :: 0 <= i < |ws| ==> ws[i] != [] && NoWhitespace(ws[i])
  }

  lemma WordsCons(w: string, ws: seq<string>)
    requires w != [] && NoWhitespace(w) && Words(ws)
    ensures Words([w] + ws)
  {
    var r := [w] + ws;
    forall i | 0 < i < |r| ensures r[i] == ws[i - 1] {
    }
  }

  /** `s.split()`: the maximal runs of non-whitespace characters, in order. */
  function Split(s: string): (r: seq<string>)
    ensures Words(r)
    ensures r == [] <==> AllWhitespace(s)
    decreases |s|
  {
    var t := TrimStart(s);
    TrimStartEmpty(s);
    if t == [] then []
    else
      var w := Token(t);
      assert w != [] by { assert !IsWhitespace(t[0]); }
      var rest := Split(t[|w|..]);
      WordsCons(w, rest);
      [w] + rest
  }

  /** `lstrip()` leaves nothing exactly when the text is all whitespace. */
  lemma TrimStartEmpty(s: string)
    ensures TrimStart(s) == [] <==> AllWhitespace(s)
  {
    var t := TrimStart(s);
    if t == [] {
      assert s[..|s|] == s;
    } else {
      assert s[|s| - |t|] == t[0];
    }
  }

  lemma SplitUnfold(s: string)
    requires TrimStart(s) != []
    ensures var t := TrimStart(s); Split(s) == [Token(t)] + Split(t[|Token(t)|..])
  {
  }

  lemma SplitOfTrimStart(s: string)
    ensures Split(TrimStart(s)) == Split(s)
  {
    var t := TrimStart(s);
    assert TrimStart(t) == t;
  }

  /** `lstrip()` removes exactly a whitespace prefix that is followed by
      a non-whitespace character or by the end of the text. */
  lemma TrimStartAt(s: string, i: nat)
    requires i <= |s| && AllWhitespace(s[..i]) && (i == |s| || !IsWhitespace(s[i]))
    ensures TrimStart(s) == s[i..]
  {
    forall k | 0 <= k < i ensures IsWhitespace(s[k]) {
      assert s[k] == s[..i][k];
    }
    SkipSpaceAt(s, 0, i);
  }

  lemma TrimStartAppendWhitespace(y: string, ws: string)
    requires AllWhitespace(ws)
    ensures TrimStart(y + ws) == if AllWhitespace(y) then [] else TrimStart(y) + ws
  {
    TrimStartEmpty(y);
    if AllWhitespace(y) {
      AllWhitespaceAppend(y, ws);
      TrimStartEmpty(y + ws);
    } else {
      TrimStartAppendAfterWord(y, ws);
    }
  }

  lemma AllWhitespaceAppend(y: string, ws: string)
    requires AllWhitespace(y) && AllWhitespace(ws)
    ensures AllWhitespace(y + ws)
  {
    forall i | 0 <= i < |y + ws| ensures IsWhitespace((y + ws)[i]) {
      if i >= |y| {
        assert (y + ws)[i] == ws[i - |y|];
      } else {
        assert (y + ws)[i] == y[i];
      }
    }
  }

  lemma TrimStartAppendAfterWord(y: string, ws: string)
    requires TrimStart(y) != []
    ensures TrimStart(y + ws) == TrimStart(y) + ws
  {
    var z := y + ws;
    var n := SkipSpace(y, 0);
    forall k | 0 <= k < n ensures IsWhitespace(z[k]) {
      assert z[k] == y[k];
    }
    assert z[n] == y[n];
    SkipSpaceAt(z, 0, n);
    assert z[n..] == y[n..] + ws;
  }

  lemma TokenAppendWhitespace(t: string, ws: string)
    requires AllWhitespace(ws)
    ensures Token(t + ws) == Token(t)
  {
    var z := t + ws;
    var m := SkipWord(t, 0);
    forall k | 0 <= k < m ensures !IsWhitespace(z[k]) {
      assert z[k] == t[k];
    }
    if m < |t| {
      assert z[m] == t[m];
    } else if ws != [] {
      assert z[m] == ws[0];
    }
    SkipWordAt(z, 0, m);
    assert z[..m] == t[..m];
  }

  /** Trailing whitespace never changes what `split()` returns. */
  lemma {:induction false} SplitAppendWhitespace(y: string, ws: string)
    requires AllWhitespace(ws)
    ensures Split(y + ws) == Split(y)
    decreases |y|
  {
    TrimStartAppendWhitespace(y, ws);
    if !AllWhitespace(y) {
      var t := TrimStart(y);
      var w := Token(t);
      TokenAppendWhitespace(t, ws);
      SplitAppendWhitespace(t[|w|..], ws);
      SplitAppendStep(y, ws, t, w, t[|w|..]);
    }
  }

  /** The inductive step of `SplitAppendWhitespace`: the first word is the
      same with or without the trailing whitespace, and so is the rest. */
  lemma SplitAppendStep(y: string, ws: string, t: string, w: string, rest: string)
    requires t == TrimStart(y) && t != [] && w == Token(t) && rest == t[|w|..]
    requires TrimStart(y + ws) == t + ws && Token(t + ws) == w
    requires Split(rest + ws) == Split(rest)
    ensures Split(y + ws) == Split(y)
  {
    DropAppend(t, ws, |w|);
    SplitUnfold(y + ws);
    SplitUnfold(y);
  }

  lemma DropAppend(t: string, ws: string, n: nat)
    requires n <= |t|
    ensures (t + ws)[n..] == t[n..] + ws
  {
  }

  lemma SplitOfTrimEnd(s: string)
    ensures Split(TrimEnd(s)) == Split(s)
  {
    var r := TrimEnd(s);
    assert s == r + s[|r|..];
    SplitAppendWhitespace(r, s[|r|..]);
  }

  /** `split()` gives the same words before and after `strip()`. */
  lemma SplitOfStrip(s: string)
    ensures Split(Strip(s)) == Split(s)
  {
    SplitOfTrimEnd(TrimStart(s));
    SplitOfTrimStart(s);
  }

  /** The first word of `split()` begins at the first non-whitespace
      character and runs up to the next whitespace character. */
  lemma FirstWordAt(s: string, i: nat)
    requires i < |s| && AllWhitespace(s[..i]) && !IsWhitespace(s[i])
    ensures Split(s) != [] && Split(s)[0] == Token(s[i..])
  {
    TrimStartAt(s, i);
    SplitUnfold(s);
  }

  // ---------------------------------------------------------------- replace

  predicate MatchAt(s: string, pat: string, i: nat) {
    i + |pat| <= |s| && s[i..i + |pat|] == pat
  }

  /** `pat` occurs nowhere before position `k`. */
  predicate NoMatchBefore(s: string, pat: string, k: nat) {
    forall i: nat :: i < k ==> !MatchAt(s, pat, i)
  }

  /** `s.replace(pat, rep)` for a non-empty `pat`: every occurrence, found
      left to right without overlap, is replaced by `rep`. */
  function Replace(s: string, pat: string, rep: string): string
    requires pat != []
    decreases |s|
  {
    if |s| < |pat| then s
    else if s[..|pat|] == pat then rep + Replace(s[|pat|..], pat, rep)
    else [s[0]] + Replace(s[1..], pat, rep)
  }

  /** Where `pat` does not occur, `replace` changes nothing. */
  lemma {:induction false} ReplaceAbsent(s: string, pat: string, rep: string)
    requires pat != []
    requires forall i: nat :: !MatchAt(s, pat, i)
    ensures Replace(s, pat, rep) == s
    decreases |s|
  {
    if |s| >= |pat| {
      assert !MatchAt(s, pat, 0);
      forall i: nat ensures !MatchAt(s[1..], pat, i) {
        assert !MatchAt(s, pat, i + 1);
        if i + |pat| <= |s[1..]| {
          assert s[1..][i..i + |pat|] == s[i + 1..i + 1 + |pat|];
        }
      }
      ReplaceAbsent(s[1..], pat, rep);
    }
  }

  /** The text before the first occurrence of `pat` is copied unchanged,
      the occurrence becomes `rep`, and replacing continues after it. */
  lemma {:induction false} ReplaceFirst(s: string, pat: string, rep: string, k: nat)
    requires pat != []
    requires MatchAt(s, pat, k) && NoMatchBefore(s, pat, k)
    ensures Replace(s, pat, rep) == s[..k] + rep + Replace(s[k + |pat|..], pat, rep)
    decreases k
  {
    if k == 0 {
      ReplaceAtMatch(s, pat, rep);
    } else {
      var inner := Replace(s[1..], pat, rep);
      assert inner == s[1..][..k - 1] + rep + Replace(s[1..][k - 1 + |pat|..], pat, rep) by {
        MatchShift(s, pat, k);
        ReplaceFirst(s[1..], pat, rep, k - 1);
      }
      ReplaceFirstStep(s, pat, rep, k);
    }
  }

  /** A match at the very start is replaced at once. */
  lemma ReplaceAtMatch(s: string, pat: string, rep: string)
    requires pat != [] && MatchAt(s, pat, 0)
    ensures Replace(s, pat, rep) == s[..0] + rep + Replace(s[|pat|..], pat, rep)
  {
    assert s[..0] + rep == rep;
  }

  /** The step of `ReplaceFirst`: a first character that starts no match is
      copied in front of the replacement of the rest. */
  lemma ReplaceFirstStep(s: string, pat: string, rep: string, k: nat)
    requires pat != [] && 0 < k && k + |pat| <= |s| && !MatchAt(s, pat, 0)
    requires Replace(s[1..], pat, rep)
          == s[1..][..k - 1] + rep + Replace(s[1..][k - 1 + |pat|..], pat, rep)
    ensures Replace(s, pat, rep) == s[..k] + rep + Replace(s[k + |pat|..], pat, rep)
  {
    var tail := Replace(s[k + |pat|..], pat, rep);
    ReplaceSkip(s, pat, rep);
    assert s[1..][k - 1 + |pat|..] == s[k + |pat|..];
    Regroup(s, k, rep, tail);
  }

  lemma Regroup(s: string, k: nat, rep: string, tail: string)
    requires 0 < k <= |s|
    ensures [s[0]] + (s[1..][..k - 1] + rep + tail) == s[..k] + rep + tail
  {
    assert [s[0]] + s[1..][..k - 1] == s[..k];
  }

  /** One character that starts no match is copied as it is. */
  lemma ReplaceSkip(s: string, pat: string, rep: string)
    requires pat != [] && |s| > |pat| && !MatchAt(s, pat, 0)
    ensures Replace(s, pat, rep) == [s[0]] + Replace(s[1..], pat, rep)
  {
  }

  lemma MatchShift(s: string, pat: string, k: nat)
    requires pat != [] && 0 < k && MatchAt(s, pat, k) && NoMatchBefore(s, pat, k)
    ensures MatchAt(s[1..], pat, k - 1) && NoMatchBefore(s[1..], pat, k - 1)
    ensures !MatchAt(s, pat, 0)
  {
    assert s[1..][k - 1..k - 1 + |pat|] == s[k..k + |pat|];
    forall i: nat | i < k - 1 ensures !MatchAt(s[1..], pat, i) {
      assert !MatchAt(s, pat, i + 1);
      assert s[1..][i..i + |pat|] == s[i + 1..i + 1 + |pat|];
    }
  }

  /** `s` with every occurrence of `c` dropped, the other characters kept
      in their order. */
  function Without(s: string, c: char): string
  {
    if s == [] then []
    else (if s[0] == c then [] else [s[0]]) + Without(s[1..], c)
  }

  lemma {:induction false} WithoutMembers(s: string, c: char)
    ensures forall x :: x in Without(s, c) <==> x in s && x != c
    decreases |s|
  {
    if s != [] {
      WithoutMembers(s[1..], c);
      assert s == [s[0]] + s[1..];
    }
  }

  /** Replacing a one-character pattern by nothing is exactly the filter
      that drops that character. */
  lemma {:induction false} ReplaceDeletes(s: string, c: char)
    ensures Replace(s, [c], []) == Without(s, c)
    ensures forall x :: x in Replace(s, [c], []) <==> x in s && x != c
    decreases |s|
  {
    if |s| >= 1 {
      ReplaceDeletes(s[1..], c);
      assert s[..1] == [s[0]];
    }
    WithoutMembers(s, c);
  }

  // --------------------------------------------------------------- str(int)

  predicate IsDigit(c: char) {
    '0' <= c <= '9'
  }

  function DigitChar(d: nat): (c: char)
    requires d < 10
    ensures IsDigit(c) && c as int - '0' as int == d
  {
    ('0' as int + d) as char
  }

  /** Decimal digits of `n` without leading zeros, as `str(n)` prints them. */
  function NatToString(n: nat): (r: string)
    ensures r != [] && forall i :: 0 <= i < |r| ==> IsDigit(r[i])
    ensures |r| > 1 ==> r[0] != '0'
  {
    if n < 10 then [DigitChar(n)]
    else NatToString(n / 10) + [DigitChar(n % 10)]
  }

  /** `str(i)` for a Python `int`. */
  function IntToString(i: int): (r: string)
    ensures r != []
  {
    if i < 0 then "-" + NatToString(-i) else NatToString(i)
  }

  /** The number a string of decimal digits denotes. */
  function DigitsValue(s: string): nat
    requires forall i :: 0 <= i < |s| ==> IsDigit(s[i])
  {
    if s == [] then 0
    else
      assert IsDigit(s[|s| - 1]);
      DigitsValue(s[..|s| - 1]) * 10 + (s[|s| - 1] as int - '0' as int)
  }

  lemma {:induction false} NatToStringRoundTrip(n: nat)
    ensures DigitsValue(NatToString(n)) == n
  {
    var r := NatToString(n);
    if n >= 10 {
      NatToStringRoundTrip(n / 10);
      assert r[..|r| - 1] == NatToString(n / 10);
    }
  }

  function Abs(i: int): nat {
    if i < 0 then -i else i
  }

  /** `str(i)` is a minus sign exactly for a negative `i`, followed by the
      digits of its magnitude. */
  lemma IntToStringParts(i: int)
    ensures IntToString(i)[0] == '-' <==> i < 0
    ensures IntToString(i)[if i < 0 then 1 else 0..] == NatToString(Abs(i))
  {
    var d := NatToString(Abs(i));
    assert IsDigit(d[0]);
    if i < 0 {
      assert IntToString(i)[1..] == d;
    }
  }

  /** Distinct integers print differently. */
  lemma IntToStringInjective(a: int, b: int)
    requires IntToString(a) == IntToString(b)
    ensures a == b
  {
    IntToStringParts(a);
    IntToStringParts(b);
    NatToStringRoundTrip(Abs(a));
    NatToStringRoundTrip(Abs(b));
  }
}
