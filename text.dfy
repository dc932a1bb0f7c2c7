/** Python string operations the bot relies on: str.isspace, strip, split()
    with and without maxsplit=1, str.join, str.replace, the `in` substring
    test and the decimal rendering and parsing of integers. */
module Text {

  /** Python's str.isspace for a single character. */
  predicate IsSpace(c: char) {
    c == ' ' || ('\t' <= c <= '\r') || ('\U{1C}' <= c <= '\U{1F}') ||
    c == '\U{85}' || c == '\U{A0}' || c == '\U{1680}' ||
    ('\U{2000}' <= c <= '\U{200A}') || c == '\U{2028}' || c == '\U{2029}' ||
    c == '\U{202F}' || c == '\U{205F}' || c == '\U{3000}'
  }

  /** A token produced by split(): non-empty and without whitespace. */
  predicate IsWord(w: string) {
    |w| > 0 && forall k :: 0 <= k < |w| ==> !IsSpace(w[k])
  }

  predicate AllWords(ws: seq<string>) {
    forall k :: 0 <= k < |ws| ==> IsWord(ws[k])
  }

  function LStrip(s: string): (r: string)
    ensures |r| <= |s| && r == s[|s| - |r|..]
    ensures r == [] || !IsSpace(r[0])
  {
    if s != [] && IsSpace(s[0]) then LStrip(s[1..]) else s
  }

  function RStrip(s: string): (r: string)
    ensures |r| <= |s| && r == s[..|r|]
    ensures r == [] || !IsSpace(r[|r| - 1])
  {
    if s != [] && IsSpace(s[|s| - 1]) then RStrip(s[..|s| - 1]) else s
  }

  /** str.strip() with no argument. */
  function Strip(s: string): string {
    RStrip(LStrip(s))
  }

  /** Length of the leading run of non-whitespace characters. */
  function WordLen(t: string): (n: nat)
    ensures n <= |t|
    ensures n < |t| ==> IsSpace(t[n])
    ensures t != [] && !IsSpace(t[0]) ==> n > 0
  {
    if t == [] || IsSpace(t[0]) then 0 else 1 + WordLen(t[1..])
  }

  /** str.split() with no argument: the maximal whitespace-free runs, in order. */
  function SplitWs(s: string): seq<string>
    decreases |s|
  {
    var t := LStrip(s);
    if t == [] then []
    else
      var n := WordLen(t);
      [t[..n]] + SplitWs(t[n..])
  }

  /** str.split(maxsplit=1): the first word and, when anything but whitespace
      follows it, the rest with its leading whitespace removed. */
  function SplitOnce(s: string): (ws: seq<string>)
    ensures |ws| <= 2
    ensures |ws| == 0 <==> SplitWs(s) == []
    ensures |ws| > 0 ==> ws[0] == SplitWs(s)[0]
    ensures |ws| == 2 ==> ws[1] != [] && !IsSpace(ws[1][0])
  {
    var t := LStrip(s);
    if t == [] then []
    else
      var n := WordLen(t);
      var rest := LStrip(t[n..]);
      if rest == [] then [t[..n]] else [t[..n], rest]
  }

  /** sep.join(xs). */
  function Join(xs: seq<string>, sep: string): string {
    if |xs| == 0 then ""
    else if |xs| == 1 then xs[0]
    else xs[0] + sep + Join(xs[1..], sep)
  }

  /** s.split(sep) for a non-empty separator. */
  function SplitOn(s: string, sep: string): (parts: seq<string>)
    requires sep != []
    ensures |parts| >= 1
    decreases |s|
  {
    if |s| < |sep| then [s]
    else if s[..|sep|] == sep then [[]] + SplitOn(s[|sep|..], sep)
    else
      var t := SplitOn(s[1..], sep);
      [[s[0]] + t[0]] + t[1..]
  }

  /** "abc".replace("", r): r before every character and at the end. */
  function ReplaceEmpty(s: string, rep: string): (r: string)
    ensures |r| == |s| + (|s| + 1) * |rep|
  {
    if s == [] then rep else rep + [s[0]] + ReplaceEmpty(s[1..], rep)
  }

  /** str.replace(pat, rep): every non-overlapping occurrence of pat, scanning
      from the left, is replaced by rep. */
  function Replace(s: string, pat: string, rep: string): string
    decreases |s|
  {
    if pat == [] then ReplaceEmpty(s, rep)
    else if |s| < |pat| then s
    else if s[..|pat|] == pat then rep + Replace(s[|pat|..], pat, rep)
    else [s[0]] + Replace(s[1..], pat, rep)
  }

  /** Python's `p in s` for strings. */
  predicate IsSubstring(p: string, s: string) {
    exists i :: 0 <= i <= |s| - |p| && OccursAt(p, s, i)
  }

  predicate OccursAt(p: string, s: string, i: int) {
    0 <= i <= |s| - |p| && s[i..i + |p|] == p
  }

  predicate IsDigit(c: char) {
    '0' <= c <= '9'
  }

  predicate IsDigits(s: string) {
    |s| > 0 && forall k :: 0 <= k < |s| ==> IsDigit(s[k])
  }

  function DigitValue(c: char): (d: nat)
    requires IsDigit(c)
    ensures d < 10
  {
    (c as int) - ('0' as int)
  }

  function DigitChar(d: nat): (c: char)
    requires d < 10
    ensures IsDigit(c) && DigitValue(c) == d
  {
    "0123456789"[d]
  }

  /** str(n) for a natural number. */
  function NatToString(n: nat): (s: string)
    ensures IsDigits(s)
  {
    if n < 10 then [DigitChar(n)] else NatToString(n / 10) + [DigitChar(n % 10)]
  }

  /** str(i) for an integer. */
  function IntToString(i: int): string {
    if i < 0 then "-" + NatToString(-i) else NatToString(i)
  }

  /** int(s) for a string of ASCII digits. */
  function DigitsValue(s: string): nat
    requires forall k :: 0 <= k < |s| ==> IsDigit(s[k])
  {
    if s == [] then 0
    else DigitsValue(s[..|s| - 1]) * 10 + DigitValue(s[|s| - 1])
  }

  // ---------------------------------------------------------------------
  // Lemmas

  /** Slices of a concatenation that lie in its second part. */
  lemma ConcatSlices(a: string, b: string, i: nat, j: nat)
    requires i <= j <= |b|
    ensures (a + b)[|a| + i..] == b[i..]
    ensures (a + b)[|a| + i..|a| + j] == b[i..j]
    ensures (a + b)[..|a| + i] == a + b[..i]
  {
  }

  lemma JoinTwo(a: string, b: string, sep: string)
    ensures Join([a, b], sep) == a + sep + b
  {
    assert [a, b][1..] == [b];
  }

  lemma JoinThree(a: string, b: string, c: string, sep: string)
    ensures Join([a, b, c], sep) == a + sep + b + sep + c
  {
    assert [a, b, c][1..] == [b, c];
    JoinTwo(b, c, sep);
  }

  /** lstrip() removes only whitespace. */
  lemma {:induction false} LStripSpaces(s: string)
    ensures forall k :: 0 <= k < |s| - |LStrip(s)| ==> IsSpace(s[k])
  {
    if s != [] && IsSpace(s[0]) {
      LStripSpaces(s[1..]);
      assert forall k :: 1 <= k < |s| - |LStrip(s)| ==> s[k] == s[1..][k - 1];
    }
  }

  /** rstrip() removes only whitespace. */
  lemma {:induction false} RStripSpaces(s: string)
    ensures forall k :: |RStrip(s)| <= k < |s| ==> IsSpace(s[k])
  {
    if s != [] && IsSpace(s[|s| - 1]) {
      RStripSpaces(s[..|s| - 1]);
      assert forall k :: |RStrip(s)| <= k < |s| - 1 ==> s[k] == s[..|s| - 1][k];
    }
  }

  /** The leading run WordLen measures holds no whitespace, so it is a word
      when it is not empty. */
  lemma {:induction false} WordLenWord(t: string)
    ensures forall k :: 0 <= k < WordLen(t) ==> !IsSpace(t[k])
  {
    if t != [] && !IsSpace(t[0]) {
      WordLenWord(t[1..]);
      assert forall k :: 1 <= k < WordLen(t) ==> t[k] == t[1..][k - 1];
    }
  }

  lemma AllWordsCons(w: string, ws: seq<string>)
    ensures AllWords([w] + ws) <==> IsWord(w) && AllWords(ws)
  {
    var xs := [w] + ws;
    assert xs[0] == w;
    assert forall k :: 0 <= k < |ws| ==> xs[k + 1] == ws[k];
  }

  lemma FirstWord(t: string)
    requires t != [] && !IsSpace(t[0])
    ensures IsWord(t[..WordLen(t)])
  {
    WordLenWord(t);
  }

  /** Every token split() produces is a word. */
  lemma {:induction false} SplitWsWords(s: string)
    ensures AllWords(SplitWs(s))
    decreases |s|
  {
    var t := LStrip(s);
    if t != [] {
      var n := WordLen(t);
      SplitWsWords(t[n..]);
      FirstWord(t);
      AllWordsCons(t[..n], SplitWs(t[n..]));
    }
  }

  /** Parsing the decimal rendering of a number gives the number back. */
  lemma {:induction false} DigitsRoundTrip(n: nat)
    ensures DigitsValue(NatToString(n)) == n
  {
    if n >= 10 {
      DigitsRoundTrip(n / 10);
      var s := NatToString(n);
      assert s[..|s| - 1] == NatToString(n / 10);
    }
  }

  lemma LStripIdempotent(s: string)
    ensures LStrip(LStrip(s)) == LStrip(s)
  {
  }

  /** Whitespace in front of a string does not change how it splits. */
  lemma SplitWsLeading(s: string)
    ensures SplitWs(LStrip(s)) == SplitWs(s)
  {
    LStripIdempotent(s);
  }

  lemma {:induction false} WordLenOfWord(w: string, rest: string)
    requires forall k :: 0 <= k < |w| ==> !IsSpace(w[k])
    requires rest == [] || IsSpace(rest[0])
    ensures WordLen(w + rest) == |w|
  {
    if w != [] {
      assert (w + rest)[1..] == w[1..] + rest;
      WordLenOfWord(w[1..], rest);
    } else {
      assert w + rest == rest;
    }
  }

  /** A word followed by whitespace (or nothing) is split off as the first
      token. */
  lemma SplitWordThen(w: string, rest: string)
    requires IsWord(w)
    requires rest == [] || IsSpace(rest[0])
    ensures SplitWs(w + rest) == [w] + SplitWs(rest)
  {
    var s := w + rest;
    assert s[0] == w[0];
    assert LStrip(s) == s;
    assert forall k :: 0 <= k < |w| ==> !IsSpace(w[k]);
    WordLenOfWord(w, rest);
    assert s[..|w|] == w;
    assert s[|w|..] == rest;
  }

  lemma JoinCons(xs: seq<string>, sep: string)
    requires |xs| > 1
    ensures Join(xs, sep) == xs[0] + (sep + Join(xs[1..], sep))
  {
  }

  lemma SpaceThenSplit(j: string)
    ensures SplitWs(" " + j) == SplitWs(j)
  {
    assert LStrip(" " + j) == LStrip(j);
    SplitWsLeading(" " + j);
    SplitWsLeading(j);
  }

  /** split() undoes " ".join() on a list of words. */
  lemma {:induction false} SplitJoinWords(ws: seq<string>)
    requires AllWords(ws)
    ensures SplitWs(Join(ws, " ")) == ws
  {
    if ws != [] {
      assert ws == [ws[0]] + ws[1..];
      AllWordsCons(ws[0], ws[1..]);
      if |ws| == 1 {
        SplitWordThen(ws[0], "");
        assert ws[0] + "" == ws[0];
      } else {
        var j := Join(ws[1..], " ");
        JoinCons(ws, " ");
        SplitJoinWords(ws[1..]);
        SplitWordThen(ws[0], " " + j);
        SpaceThenSplit(j);
      }
    }
  }

  /** split(maxsplit=1) agrees with split(): the first word is the first
      token, and the remainder splits into the remaining tokens. */
  lemma SplitOnceAgrees(s: string)
    ensures |SplitOnce(s)| == 2 <==> |SplitWs(s)| >= 2
    ensures |SplitOnce(s)| == 2 ==> SplitWs(SplitOnce(s)[1]) == SplitWs(s)[1..]
  {
    var t := LStrip(s);
    if t != [] {
      var n := WordLen(t);
      SplitWsLeading(t[n..]);
      LStripIdempotent(t[n..]);
    }
  }

  lemma JoinFirstCons(c: char, t: seq<string>, sep: string)
    requires |t| >= 1
    ensures Join([[c] + t[0]] + t[1..], sep) == [c] + Join(t, sep)
  {
    var u := [[c] + t[0]] + t[1..];
    if |t| > 1 {
      assert u[1..] == t[1..];
    }
  }

  /** str.replace is split followed by join (for a non-empty pattern). */
  lemma {:induction false} ReplaceIsSplitJoin(s: string, pat: string, rep: string)
    requires pat != []
    ensures Replace(s, pat, rep) == Join(SplitOn(s, pat), rep)
    decreases |s|
  {
    if |s| < |pat| {
    } else if s[..|pat|] == pat {
      ReplaceIsSplitJoin(s[|pat|..], pat, rep);
      var p := SplitOn(s[|pat|..], pat);
      assert ([[]] + p)[1..] == p;
    } else {
      ReplaceIsSplitJoin(s[1..], pat, rep);
      JoinFirstCons(s[0], SplitOn(s[1..], pat), rep);
    }
  }

  /** Joining the pieces of a split with the separator restores the string. */
  lemma SplitOnJoin(s: string, sep: string)
    requires sep != []
    ensures Join(SplitOn(s, sep), sep) == s
  {
    ReplaceIsSplitJoin(s, sep, sep);
    ReplaceSelf(s, sep);
  }

  /** Replacing a pattern by itself changes nothing. */
  lemma {:induction false} ReplaceSelf(s: string, pat: string)
    requires pat != []
    ensures Replace(s, pat, pat) == s
    decreases |s|
  {
    if |s| < |pat| {
    } else if s[..|pat|] == pat {
      ReplaceSelf(s[|pat|..], pat);
      assert s == s[..|pat|] + s[|pat|..];
    } else {
      ReplaceSelf(s[1..], pat);
      assert s == [s[0]] + s[1..];
    }
  }

  /** A template without the placeholder is left unchanged. */
  lemma {:induction false} ReplaceAbsent(s: string, pat: string, rep: string)
    requires pat != [] && !IsSubstring(pat, s)
    ensures Replace(s, pat, rep) == s
    decreases |s|
  {
    if |s| >= |pat| {
      assert !OccursAt(pat, s, 0);
      assert !IsSubstring(pat, s[1..]) by {
        forall i | 0 <= i <= |s[1..]| - |pat|
          ensures !OccursAt(pat, s[1..], i)
        {
          assert s[1..][i..i + |pat|] == s[i + 1..i + 1 + |pat|];
          assert !OccursAt(pat, s, i + 1);
        }
      }
      ReplaceAbsent(s[1..], pat, rep);
      assert s == [s[0]] + s[1..];
    }
  }

  /** split(maxsplit=1) of a word, a blank and a rest that starts with
      something other than whitespace: the word and the rest. */
  lemma SplitOnceWordRest(w: string, rest: string)
    requires IsWord(w) && rest != [] && !IsSpace(rest[0])
    ensures SplitOnce(w + " " + rest) == [w, rest]
  {
    var u := " " + rest;
    var s := w + u;
    assert w + " " + rest == s;
    assert s[0] == w[0];
    assert LStrip(s) == s;
    assert forall k :: 0 <= k < |w| ==> !IsSpace(w[k]);
    WordLenOfWord(w, u);
    assert s[..|w|] == w;
    assert s[|w|..] == u;
    assert u[1..] == rest;
    assert LStrip(u) == LStrip(rest) == rest;
  }

  /** split(maxsplit=1) of a lone word. */
  lemma SplitOnceWord(w: string)
    requires IsWord(w)
    ensures SplitOnce(w) == [w]
  {
    assert LStrip(w) == w;
    assert forall k :: 0 <= k < |w| ==> !IsSpace(w[k]);
    WordLenOfWord(w, []);
    assert w + [] == w;
    assert w[..|w|] == w;
  }

  /** strip() leaves a string alone whose ends are not whitespace. */
  lemma StripTrimmed(s: string)
    requires s != [] && !IsSpace(s[0]) && !IsSpace(s[|s| - 1])
    ensures Strip(s) == s
  {
  }

  /** Replacing in a string whose first characters cannot start the pattern
      copies them and goes on behind them. */
  lemma {:induction false} ReplaceSkipPrefix(a: string, t: string, pat: string, rep: string)
    requires pat != [] && |t| >= |pat|
    requires forall k :: 0 <= k < |a| ==> a[k] != pat[0]
    ensures Replace(a + t, pat, rep) == a + Replace(t, pat, rep)
    decreases |a|
  {
    if a == [] {
      assert a + t == t;
    } else {
      var s := a + t;
      var a' := a[1..];
      assert s[0] == a[0];
      ReplaceSkipOne(s, pat, rep);
      assert s[1..] == a' + t;
      assert forall k :: 0 <= k < |a'| ==> a'[k] == a[k + 1];
      ReplaceSkipPrefix(a', t, pat, rep);
      var r := Replace(t, pat, rep);
      assert [a[0]] + (a' + r) == ([a[0]] + a') + r;
      assert [a[0]] + a' == a;
    }
  }

  lemma ReplaceSkipOne(s: string, pat: string, rep: string)
    requires pat != [] && |s| >= |pat| && s[0] != pat[0]
    ensures Replace(s, pat, rep) == [s[0]] + Replace(s[1..], pat, rep)
  {
    assert s[..|pat|][0] == s[0];
  }

  /** The pattern followed by too little to hold it again. */
  lemma ReplaceLeading(pat: string, c: string, rep: string)
    requires pat != [] && |c| < |pat|
    ensures Replace(pat + c, pat, rep) == rep + c
  {
    var s := pat + c;
    assert s[..|pat|] == pat;
    assert s[|pat|..] == c;
  }
}
