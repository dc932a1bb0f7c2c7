/** The command parser parse_js_call (cbot.py:50-73): `f a "b c" d` becomes
    the call `f(a, "b c", d)`. Quoted runs are cut out first and replaced by
    a sentinel word, the rest is split on whitespace, and each token equal to
    the sentinel gets the next quoted run back, in order. */
module CallSyntax {
  import opened Text
  import opened Errors

  /** The placeholder parse_js_call puts where each quoted run was (cbot.py:54). */
  const Sentinel: string := "sssdssdssdsd56137824"

  predicate QuoteFree(s: string) {
    forall k :: 0 <= k < |s| ==> s[k] != '"'
  }

  /** Position of the first double quote, or |s| when there is none. */
  function QuoteAt(s: string): (i: nat)
    ensures i <= |s|
  {
    if s == [] || s[0] == '"' then 0 else 1 + QuoteAt(s[1..])
  }

  /** re.findall('"([^"]*)"', s), scanning from the left: a quote opens a
      match when another quote follows it somewhere, and the text between the
      two is the match; a quote with no partner ends the scan. */
  function FindQuoted(s: string): seq<string>
    decreases |s|
  {
    if s == [] then []
    else if s[0] != '"' then FindQuoted(s[1..])
    else
      var j := QuoteAt(s[1..]);
      if j == |s| - 1 then [] else [s[1..j + 1]] + FindQuoted(s[j + 2..])
  }

  /** re.sub('"([^"]*)"', rep, s): each match, quotes included, becomes rep;
      everything else is copied. */
  function SubQuoted(s: string, rep: string): string
    decreases |s|
  {
    if s == [] then []
    else if s[0] != '"' then [s[0]] + SubQuoted(s[1..], rep)
    else
      var j := QuoteAt(s[1..]);
      if j == |s| - 1 then s else rep + SubQuoted(s[j + 2..], rep)
  }

  function Quote(q: string): string {
    "\"" + q + "\""
  }

  function Prepend(xs: seq<string>, o: Option<seq<string>>): Option<seq<string>> {
    match o
    case None => None
    case Some(ys) => Some(xs + ys)
  }

  /** The loop of parse_js_call (cbot.py:58-63): a sentinel token takes the
      next quoted run, re-wrapped in quotes; any other token is kept. None
      when a sentinel finds the quoted runs used up (an IndexError). */
  function Restore(toks: seq<string>, qs: seq<string>): Option<seq<string>> {
    if toks == [] then Some([])
    else if toks[0] == Sentinel then
      if qs == [] then None else Prepend([Quote(qs[0])], Restore(toks[1..], qs[1..]))
    else Prepend([toks[0]], Restore(toks[1..], qs))
  }

  lemma PrependPrepend(xs: seq<string>, ys: seq<string>, o: Option<seq<string>>)
    ensures Prepend(xs, Prepend(ys, o)) == Prepend(xs + ys, o)
  {
    match o
    case None =>
    case Some(zs) => assert xs + (ys + zs) == (xs + ys) + zs;
  }

  function SentinelCount(toks: seq<string>): nat {
    if toks == [] then 0
    else (if toks[0] == Sentinel then 1 else 0) + SentinelCount(toks[1..])
  }

  /** `name()` for a lone name, else `name(a, b, c)` (cbot.py:65-70). */
  function CallText(final: seq<string>): string
    requires |final| > 0
  {
    if |final| == 1 then final[0] + "()"
    else final[0] + "(" + Join(final[1..], ", ") + ")"
  }

  function Tokens(s: string): seq<string> {
    SplitWs(SubQuoted(s, Sentinel))
  }

  /** What parse_js_call returns for s, or the IndexError it raises: a
      sentinel with no quoted run left (cbot.py:60) or no token at all
      (cbot.py:65). */
  function JsCall(s: string): Result<string> {
    match Restore(Tokens(s), FindQuoted(s))
    case None => Err(IndexError)
    case Some(final) => if final == [] then Err(IndexError) else Ok(CallText(final))
  }

  /** parse_js_call (cbot.py:50-73). */
  method ParseJsCall(s: string) returns (r: Result<string>)
    ensures r == JsCall(s)
  {
    var quoteds := FindQuoted(s);
    var tokens := SplitWs(SubQuoted(s, Sentinel));
    var final: seq<string> := [];
    var count := 0;
    assert tokens[0..] == tokens && quoteds[0..] == quoteds;
    assert Prepend([], Restore(tokens, quoteds)) == Restore(tokens, quoteds) by {
      match Restore(tokens, quoteds)
      case None =>
      case Some(ys) => assert [] + ys == ys;
    }
    for i := 0 to |tokens|
      invariant count <= |quoteds|
      invariant Restore(tokens, quoteds) == Prepend(final, Restore(tokens[i..], quoteds[count..]))
    {
      assert tokens[i..][1..] == tokens[i + 1..];
      if tokens[i] == Sentinel {
        if count >= |quoteds| {
          return Err(IndexError);
        }
        assert quoteds[count..][1..] == quoteds[count + 1..];
        PrependPrepend(final, [Quote(quoteds[count])], Restore(tokens[i + 1..], quoteds[count + 1..]));
        final := final + [Quote(quoteds[count])];
        count := count + 1;
      } else {
        PrependPrepend(final, [tokens[i]], Restore(tokens[i + 1..], quoteds[count..]));
        final := final + [tokens[i]];
      }
    }
    assert tokens[|tokens|..] == [];
    assert final + [] == final;
    assert Restore(tokens, quoteds) == Some(final);
    if final == [] {
      return Err(IndexError);
    }
    if |final| == 1 {
      r := Ok(final[0] + "()");
    } else {
      r := Ok(final[0] + "(" + Join(final[1..], ", ") + ")");
    }
  }

  // ---------------------------------------------------------------------
  // Lemmas

  /** The loop succeeds exactly when there are at least as many quoted runs
      as sentinel tokens. */
  lemma {:induction false} RestoreSucceeds(toks: seq<string>, qs: seq<string>)
    ensures Restore(toks, qs).Some? <==> SentinelCount(toks) <= |qs|
    ensures Restore(toks, qs).Some? ==> |Restore(toks, qs).value| == |toks|
  {
    if toks != [] {
      if toks[0] == Sentinel {
        if qs != [] {
          RestoreSucceeds(toks[1..], qs[1..]);
        }
      } else {
        RestoreSucceeds(toks[1..], qs);
      }
    }
  }

  /** When the loop succeeds, output token i is input token i, except that
      the k-th sentinel token (counting from 0) becomes the k-th quoted run. */
  lemma {:induction false} RestoreAt(toks: seq<string>, qs: seq<string>, i: nat)
    requires SentinelCount(toks) <= |qs| && i < |toks|
    ensures SentinelCount(toks[..i]) + (if toks[i] == Sentinel then 1 else 0) <= |qs|
    ensures Restore(toks, qs).Some? && |Restore(toks, qs).value| == |toks|
    ensures Restore(toks, qs).value[i] ==
      if toks[i] == Sentinel then Quote(qs[SentinelCount(toks[..i])]) else toks[i]
  {
    RestoreSucceeds(toks, qs);
    var q' := if toks[0] == Sentinel then qs[1..] else qs;
    RestoreSucceeds(toks[1..], q');
    if i > 0 {
      RestoreAt(toks[1..], q', i - 1);
      assert toks[..i][1..] == toks[1..][..i - 1];
      assert toks[1..][i - 1] == toks[i];
    }
  }

  /** parse_js_call fails exactly when the command has no token or has more
      sentinel tokens than quoted runs. */
  lemma {:induction false} JsCallFails(s: string)
    ensures JsCall(s).Err? <==>
      Tokens(s) == [] || SentinelCount(Tokens(s)) > |FindQuoted(s)|
    ensures JsCall(s).Err? ==> JsCall(s).error == IndexError
  {
    RestoreSucceeds(Tokens(s), FindQuoted(s));
  }

  /** One argument of a well-formed command: a bare word, or a quoted run
      standing on its own between whitespace. */
  datatype Arg = Bare(word: string) | Quoted(text: string)

  predicate WellFormed(a: Arg) {
    match a
    case Bare(w) => IsWord(w) && QuoteFree(w) && w != Sentinel
    case Quoted(q) => QuoteFree(q)
  }

  function Render(a: Arg): string {
    match a
    case Bare(w) => w
    case Quoted(q) => Quote(q)
  }

  /** The command text's words, as typed. */
  function Rendered(args: seq<Arg>): (r: seq<string>)
    ensures |r| == |args|
  {
    if args == [] then [] else [Render(args[0])] + Rendered(args[1..])
  }

  /** The words after each quoted run has been replaced by the sentinel. */
  function Masked(args: seq<Arg>): (r: seq<string>)
    ensures |r| == |args|
  {
    if args == [] then []
    else [if args[0].Bare? then args[0].word else Sentinel] + Masked(args[1..])
  }

  function QuotedRuns(args: seq<Arg>): seq<string> {
    if args == [] then []
    else (if args[0].Quoted? then [args[0].text] else []) + QuotedRuns(args[1..])
  }

  lemma {:induction false} QuoteAtSkip(a: string, b: string)
    requires QuoteFree(a)
    ensures QuoteAt(a + b) == |a| + QuoteAt(b)
  {
    if a != [] {
      assert (a + b)[1..] == a[1..] + b;
      QuoteAtSkip(a[1..], b);
    } else {
      assert a + b == b;
    }
  }

  /** Text without quotes in front of a string changes neither the quoted
      runs found nor the substitution. */
  lemma {:induction false} FindQuoteFreePrefix(a: string, b: string)
    requires QuoteFree(a)
    ensures FindQuoted(a + b) == FindQuoted(b)
  {
    if a != [] {
      assert (a + b)[1..] == a[1..] + b;
      FindQuoteFreePrefix(a[1..], b);
    } else {
      assert a + b == b;
    }
  }

  lemma {:induction false} SubQuoteFreePrefix(a: string, b: string, rep: string)
    requires QuoteFree(a)
    ensures SubQuoted(a + b, rep) == a + SubQuoted(b, rep)
  {
    if a != [] {
      assert (a + b)[1..] == a[1..] + b;
      SubQuoteFreePrefix(a[1..], b, rep);
      assert a == [a[0]] + a[1..];
    } else {
      assert a + b == b;
    }
  }

  /** A quoted run at the front is the first match. */
  lemma {:induction false} QuotedRunFirst(q: string, rest: string, rep: string)
    requires QuoteFree(q)
    ensures FindQuoted(Quote(q) + rest) == [q] + FindQuoted(rest)
    ensures SubQuoted(Quote(q) + rest, rep) == rep + SubQuoted(rest, rep)
  {
    var s := Quote(q) + rest;
    var t := q + ("\"" + rest);
    assert s == "\"" + t;
    assert s[1..] == t;
    QuoteAtSkip(q, "\"" + rest);
    assert s[1..|q| + 1] == q;
    assert s[|q| + 2..] == rest;
  }

  /** Scanning a well-formed command finds exactly its quoted arguments. */
  lemma {:induction false} ScanFindsQuoted(args: seq<Arg>)
    requires forall k :: 0 <= k < |args| ==> WellFormed(args[k])
    ensures FindQuoted(Join(Rendered(args), " ")) == QuotedRuns(args)
  {
    if args != [] {
      var a := args[0];
      var head := Render(a);
      var tail := args[1..];
      assert Rendered(args)[1..] == Rendered(tail);
      var rest := if |args| == 1 then "" else " " + Join(Rendered(tail), " ");
      assert Join(Rendered(args), " ") == head + rest;
      if |args| > 1 {
        ScanFindsQuoted(tail);
        FindQuoteFreePrefix(" ", Join(Rendered(tail), " "));
      } else {
        assert tail == [];
      }
      if a.Bare? {
        FindQuoteFreePrefix(head, rest);
      } else {
        QuotedRunFirst(a.text, rest, Sentinel);
      }
    }
  }

  /** The substitution leaves the bare words and puts a sentinel in place of
      each quoted argument. */
  lemma {:induction false} ScanMasksQuoted(args: seq<Arg>)
    requires forall k :: 0 <= k < |args| ==> WellFormed(args[k])
    ensures SubQuoted(Join(Rendered(args), " "), Sentinel) == Join(Masked(args), " ")
  {
    if args != [] {
      var a := args[0];
      var head := Render(a);
      var tail := args[1..];
      assert Rendered(args)[1..] == Rendered(tail);
      assert Masked(args)[1..] == Masked(tail);
      var rest := if |args| == 1 then "" else " " + Join(Rendered(tail), " ");
      var mrest := if |args| == 1 then "" else " " + Join(Masked(tail), " ");
      assert Join(Rendered(args), " ") == head + rest;
      assert Join(Masked(args), " ") == Masked(args)[0] + mrest;
      if |args| > 1 {
        ScanMasksQuoted(tail);
        SubQuoteFreePrefix(" ", Join(Rendered(tail), " "), Sentinel);
      }
      assert SubQuoted(rest, Sentinel) == mrest;
      if a.Bare? {
        SubQuoteFreePrefix(head, rest, Sentinel);
      } else {
        QuotedRunFirst(a.text, rest, Sentinel);
      }
    }
  }

  lemma {:induction false} RestoreWellFormed(args: seq<Arg>)
    requires forall k :: 0 <= k < |args| ==> WellFormed(args[k])
    ensures Restore(Masked(args), QuotedRuns(args)) == Some(Rendered(args))
  {
    if args != [] {
      RestoreWellFormed(args[1..]);
      var m := Masked(args);
      assert m[1..] == Masked(args[1..]);
      if args[0].Quoted? {
        assert m[0] == Sentinel;
        assert QuotedRuns(args) == [args[0].text] + QuotedRuns(args[1..]);
      } else {
        assert m[0] == args[0].word != Sentinel;
        assert QuotedRuns(args) == QuotedRuns(args[1..]);
        assert Rendered(args) == [args[0].word] + Rendered(args[1..]);
      }
    }
  }

  /** Quoted runs survive as single arguments: for a command made of
      whitespace-free words and quoted runs separated by spaces, the call is
      the first of them applied to the others, each quoted run intact. */
  lemma {:induction false} CallPreservesQuotes(args: seq<Arg>)
    requires |args| > 0
    requires forall k :: 0 <= k < |args| ==> WellFormed(args[k])
    ensures JsCall(Join(Rendered(args), " ")) == Ok(CallText(Rendered(args)))
  {
    ScanFindsQuoted(args);
    ScanMasksQuoted(args);
    MaskedWords(args);
    SplitJoinWords(Masked(args));
    RestoreWellFormed(args);
  }

  lemma {:induction false} MaskedWords(args: seq<Arg>)
    requires forall k :: 0 <= k < |args| ==> WellFormed(args[k])
    ensures AllWords(Masked(args))
  {
    if args != [] {
      MaskedWords(args[1..]);
      SentinelIsWord();
      assert WellFormed(args[0]);
      AllWordsCons(Masked(args)[0], Masked(args[1..]));
    }
  }

  lemma SentinelIsWord()
    ensures IsWord(Sentinel) && QuoteFree(Sentinel)
  {
  }

  /** A name, a quoted run and a word, as in `send "hello there" 5`,
      become a two-argument call, `send("hello there", 5)`, with the quoted
      run intact. */
  lemma {:induction false} SendExample(f: string, q: string, w: string)
    requires IsWord(f) && QuoteFree(f) && f != Sentinel
    requires IsWord(w) && QuoteFree(w) && w != Sentinel
    requires QuoteFree(q)
    ensures JsCall(f + " " + Quote(q) + " " + w) == Ok(f + "(" + Quote(q) + ", " + w + ")")
  {
    var args := [Bare(f), Quoted(q), Bare(w)];
    SendRendered(f, q, w);
    CallPreservesQuotes(args);
  }

  lemma SendRendered(f: string, q: string, w: string)
    requires IsWord(f) && QuoteFree(f) && f != Sentinel
    requires IsWord(w) && QuoteFree(w) && w != Sentinel
    requires QuoteFree(q)
    ensures var args := [Bare(f), Quoted(q), Bare(w)];
      (forall k :: 0 <= k < |args| ==> WellFormed(args[k])) &&
      Join(Rendered(args), " ") == f + " " + Quote(q) + " " + w &&
      CallText(Rendered(args)) == f + "(" + Quote(q) + ", " + w + ")"
  {
    var a3 := [Bare(w)];
    assert a3[1..] == [];
    var a2 := [Quoted(q)] + a3;
    assert a2[1..] == a3;
    var args := [Bare(f)] + a2;
    assert args[1..] == a2;
    assert Rendered(a2) == [Quote(q), w];
    var r := Rendered(args);
    assert r == [f, Quote(q), w];
    assert r[1..] == [Quote(q), w];
    JoinThree(f, Quote(q), w, " ");
    JoinTwo(Quote(q), w, ", ");
    var inner := Join(r[1..], ", ");
    assert inner == Quote(q) + ", " + w;
    assert CallText(r) == f + "(" + inner + ")";
    assert f + "(" + inner + ")" == f + "(" + Quote(q) + ", " + w + ")";
  }

  /** A quoted run glued to a word is cut out, but the token holding the
      sentinel is not the sentinel, so the quoted text is lost from the call:
      `f x"a b"` becomes `f(x` followed by the sentinel and `)`. */
  lemma {:induction false} GluedQuoteExample(f: string, w: string, q: string)
    requires IsWord(f) && QuoteFree(f) && f != Sentinel
    requires IsWord(w) && QuoteFree(w) && QuoteFree(q)
    ensures JsCall(f + " " + w + Quote(q)) == Ok(f + "(" + w + Sentinel + ")")
  {
    var pre := f + " " + w;
    GluedScan(pre, q);
    GluedTokens(f, w);
    GluedRestore(f, w, q);
  }

  lemma GluedRestore(f: string, w: string, q: string)
    requires f != Sentinel && w != []
    ensures Restore([f, w + Sentinel], [q]) == Some([f, w + Sentinel])
    ensures CallText([f, w + Sentinel]) == f + "(" + w + Sentinel + ")"
  {
    var x := w + Sentinel;
    var ws := [f, x];
    assert |x| != |Sentinel|;
    var t := [x];
    assert ws[1..] == t && t[1..] == [];
    assert Restore(t[1..], [q]) == Some([]);
    assert Restore(t, [q]) == Prepend([x], Some([]));
    assert [x] + [] == [x];
    assert Restore(ws, [q]) == Prepend([f], Some([x]));
    assert [f] + [x] == ws;
    assert Join(ws[1..], ", ") == x;
    assert CallText(ws) == f + "(" + x + ")";
    assert f + "(" + x + ")" == f + "(" + w + Sentinel + ")";
  }

  lemma GluedScan(pre: string, q: string)
    requires QuoteFree(pre) && QuoteFree(q)
    ensures FindQuoted(pre + Quote(q)) == [q]
    ensures SubQuoted(pre + Quote(q), Sentinel) == pre + Sentinel
  {
    assert pre + Quote(q) == pre + (Quote(q) + "");
    FindQuoteFreePrefix(pre, Quote(q) + "");
    SubQuoteFreePrefix(pre, Quote(q) + "", Sentinel);
    QuotedRunFirst(q, "", Sentinel);
  }

  lemma GluedTokens(f: string, w: string)
    requires IsWord(f) && IsWord(w)
    ensures SplitWs(f + " " + w + Sentinel) == [f, w + Sentinel]
  {
    var x := w + Sentinel;
    GluedWord(w);
    TwoWords(f, x);
    assert f + " " + w + Sentinel == f + " " + x;
  }

  lemma TwoWords(f: string, x: string)
    requires IsWord(f) && IsWord(x)
    ensures SplitWs(f + " " + x) == [f, x]
  {
    var ws := [f, x];
    AllWordsCons(x, []);
    AllWordsCons(f, [x]);
    assert [f] + [x] == ws && [x] + [] == [x];
    SplitJoinWords(ws);
    JoinTwo(f, x, " ");
  }

  lemma GluedWord(w: string)
    requires IsWord(w)
    ensures IsWord(w + Sentinel)
  {
    SentinelIsWord();
  }
}
