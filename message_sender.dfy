/** `cleanJSON` of `MessageSender.jsx`: the server's reply is a Python
    dictionary printed as text; a fixed chain of literal replacements turns
    its single quotes into double quotes before `JSON.parse`. */
module MessageSender {
  import opened Wrappers

  /** `s.replace(/pat/g, rep)` for a pattern without special characters:
      every non-overlapping occurrence, left to right, becomes `rep`. */
  function ReplaceAll(s: string, pat: string, rep: string): (r: string)
    requires |pat| > 0
    ensures |rep| == |pat| ==> |r| == |s|
    decreases |s|
  {
    if |s| < |pat| then s
    else if s[..|pat|] == pat then rep + ReplaceAll(s[|pat|..], pat, rep)
    else [s[0]] + ReplaceAll(s[1..], pat, rep)
  }

  /** The eight replacements, in the order the chain applies them. */
  const Rewrites: seq<(string, string)> := [
    ("{'", "{\""),
    ("': '", "\": \""),
    ("\": '", "\": \""),
    ("': \"", "\": \""),
    ("\", '", "\", \""),
    ("', '", "\", \""),
    ("', \"", "\", \""),
    ("'}", "\"}")
  ]

  /** The chain of replacements applied to `raw`, one rule after another. */
  function ApplyRewrites(raw: string, rules: seq<(string, string)>): (r: string)
    requires forall k :: 0 <= k < |rules| ==> |rules[k].0| > 0
    ensures (forall k :: 0 <= k < |rules| ==> |rules[k].1| == |rules[k].0|) ==> |r| == |raw|
    decreases |rules|
  {
    if rules == [] then raw
    else ApplyRewrites(ReplaceAll(raw, rules[0].0, rules[0].1), rules[1..])
  }

  /** The text `cleanJSON` hands to `JSON.parse`. */
  function RewriteQuotes(raw: string): (r: string)
    ensures |r| == |raw|
  {
    ApplyRewrites(raw, Rewrites)
  }

  /** `t` is `s` with some single quotes turned into double quotes and
      nothing else changed. */
  ghost predicate QuoteOnly(s: string, t: string) {
    |s| == |t| && forall i :: 0 <= i < |s| ==> t[i] == s[i] || (s[i] == '\'' && t[i] == '"')
  }

  lemma QuoteOnlyConcat(s1: string, t1: string, s2: string, t2: string)
    requires QuoteOnly(s1, t1) && QuoteOnly(s2, t2)
    ensures QuoteOnly(s1 + s2, t1 + t2)
  {
    forall i | 0 <= i < |s1 + s2|
      ensures (t1 + t2)[i] == (s1 + s2)[i] || ((s1 + s2)[i] == '\'' && (t1 + t2)[i] == '"')
    {
      if i >= |s1| {
        assert (s1 + s2)[i] == s2[i - |s1|] && (t1 + t2)[i] == t2[i - |s1|];
      }
    }
  }

  lemma QuoteOnlyTrans(s: string, t: string, u: string)
    requires QuoteOnly(s, t) && QuoteOnly(t, u)
    ensures QuoteOnly(s, u)
  {
  }

  /** Replacing a pattern by a text that differs from it only by quotes
      changes nothing but quotes, and keeps the length. */
  lemma {:induction false} ReplaceAllQuoteOnly(s: string, pat: string, rep: string)
    requires |pat| > 0 && QuoteOnly(pat, rep)
    ensures QuoteOnly(s, ReplaceAll(s, pat, rep))
    decreases |s|
  {
    if |s| < |pat| {
    } else if s[..|pat|] == pat {
      ReplaceAllQuoteOnly(s[|pat|..], pat, rep);
      QuoteOnlyConcat(pat, rep, s[|pat|..], ReplaceAll(s[|pat|..], pat, rep));
      assert s == pat + s[|pat|..];
    } else {
      ReplaceAllQuoteOnly(s[1..], pat, rep);
      QuoteOnlyConcat([s[0]], [s[0]], s[1..], ReplaceAll(s[1..], pat, rep));
      assert s == [s[0]] + s[1..];
    }
  }

  lemma {:induction false} ApplyRewritesQuoteOnly(raw: string, rules: seq<(string, string)>)
    requires forall k :: 0 <= k < |rules| ==> |rules[k].0| > 0 && QuoteOnly(rules[k].0, rules[k].1)
    ensures QuoteOnly(raw, ApplyRewrites(raw, rules))
    decreases |rules|
  {
    if rules != [] {
      var next := ReplaceAll(raw, rules[0].0, rules[0].1);
      ReplaceAllQuoteOnly(raw, rules[0].0, rules[0].1);
      ApplyRewritesQuoteOnly(next, rules[1..]);
      QuoteOnlyTrans(raw, next, ApplyRewrites(raw, rules));
    }
  }

  /** Every rule's pattern and replacement have the same length and differ
      only where a single quote becomes a double quote. */
  lemma RewritesQuoteOnly()
    ensures forall k :: 0 <= k < |Rewrites| ==> |Rewrites[k].0| > 0 && QuoteOnly(Rewrites[k].0, Rewrites[k].1)
  {
    forall k | 0 <= k < |Rewrites|
      ensures |Rewrites[k].0| > 0 && QuoteOnly(Rewrites[k].0, Rewrites[k].1)
    {
      var (pat, rep) := Rewrites[k];
      assert |pat| == |rep|;
      forall i | 0 <= i < |pat| ensures rep[i] == pat[i] || (pat[i] == '\'' && rep[i] == '"') {
      }
    }
  }

  /** The rewritten text has the reply's length and differs from it only
      where a single quote became a double quote. */
  lemma RewriteQuotesOnlyQuotes(raw: string)
    ensures |RewriteQuotes(raw)| == |raw|
    ensures forall i :: 0 <= i < |raw| ==>
              RewriteQuotes(raw)[i] == raw[i] || (raw[i] == '\'' && RewriteQuotes(raw)[i] == '"')
  {
    RewritesQuoteOnly();
    ApplyRewritesQuoteOnly(raw, Rewrites);
  }

  /** A reply without single quotes reaches `JSON.parse` unchanged. */
  lemma NoQuotesUnchanged(raw: string)
    requires forall i :: 0 <= i < |raw| ==> raw[i] != '\''
    ensures RewriteQuotes(raw) == raw
  {
    RewriteQuotesOnlyQuotes(raw);
  }

  lemma {:induction false} ApplyRewritesSnoc(raw: string, rules: seq<(string, string)>, last: (string, string))
    requires forall k :: 0 <= k < |rules| ==> |rules[k].0| > 0
    requires |last.0| > 0
    ensures ApplyRewrites(raw, rules + [last]) == ReplaceAll(ApplyRewrites(raw, rules), last.0, last.1)
    decreases |rules|
  {
    if rules != [] {
      assert (rules + [last])[1..] == rules[1..] + [last];
      ApplyRewritesSnoc(ReplaceAll(raw, rules[0].0, rules[0].1), rules[1..], last);
    }
  }

  /** A trailing `'}` is still the tail after the closing rule. */
  lemma {:induction false} ClosingRule(s: string)
    requires EndsWith(s, "'}")
    ensures EndsWith(ReplaceAll(s, "'}", "\"}"), "\"}")
    decreases |s|
  {
    var t := ReplaceAll(s, "'}", "\"}");
    assert s[|s| - 2] == '\'' && s[|s| - 1] == '}' by {
      assert s[|s| - 2..] == "'}";
    }
    if s[..2] == "'}" {
      assert s[1] == '}';
      if |s| == 2 {
        assert t == "\"}" + ReplaceAll([], "'}", "\"}");
      } else {
        assert s[2..][|s| - 4..] == s[|s| - 2..];
        ClosingRule(s[2..]);
      }
    } else {
      assert s[1..][|s| - 3..] == s[|s| - 2..];
      ClosingRule(s[1..]);
    }
  }

  /** A reply that opens with `{'` reaches `JSON.parse` opening with `{"`. */
  lemma OpeningBecomesDoubleQuoted(rest: string)
    ensures StartsWith(RewriteQuotes("{'" + rest), "{\"")
  {
    var s1 := ReplaceAll("{'" + rest, "{'", "{\"");
    assert ("{'" + rest)[..2] == "{'";
    assert ("{'" + rest)[2..] == rest;
    assert s1[0] == '{' && s1[1] == '"';
    RewritesQuoteOnly();
    ApplyRewritesQuoteOnly(s1, Rewrites[1..]);
    var t := RewriteQuotes("{'" + rest);
    assert t == ApplyRewrites(s1, Rewrites[1..]);
    assert t[..2] == [t[0], t[1]] == "{\"";
  }

  /** The chain ends with the closing rule. */
  lemma LastRule()
    ensures Rewrites == Rewrites[..7] + [Rewrites[7]] && Rewrites[7] == ("'}", "\"}")
  {
  }

  /** A reply that closes with `'}` reaches `JSON.parse` closing with `"}`. */
  lemma ClosingBecomesDoubleQuoted(body: string)
    ensures EndsWith(RewriteQuotes(body + "'}"), "\"}")
  {
    var s := body + "'}";
    var n := |s|;
    RewritesQuoteOnly();
    LastRule();
    ApplyRewritesSnoc(s, Rewrites[..7], Rewrites[7]);
    var u := ApplyRewrites(s, Rewrites[..7]);
    ApplyRewritesQuoteOnly(s, Rewrites[..7]);
    assert s[n - 1] == '}' && s[n - 2] == '\'';
    var t := ReplaceAll(u, "'}", "\"}");
    assert t == RewriteQuotes(s);
    if u[n - 2] == '\'' {
      assert u[n - 2..] == "'}";
      ClosingRule(u);
    } else {
      ReplaceAllQuoteOnly(u, "'}", "\"}");
      assert t[n - 2..] == [t[n - 2], t[n - 1]] == "\"}";
    }
  }

  /** A key or value Python prints between quotes that the chain leaves
      alone: non-empty, without quotes or braces, and not starting with a
      character that continues any of the patterns. */
  predicate Word(w: string) {
    |w| > 0 && w[0] !in ":, }" && forall i :: 0 <= i < |w| ==> w[i] !in "{'\""
  }

  /** The printed form of a flat dictionary: delimiters `ds` around the
      keys and values `ws`, as in `ds[0] + ws[0] + ds[1] + ... + ds[n]`. */
  function Interleave(ds: seq<string>, ws: seq<string>): (t: string)
    requires |ds| == |ws| + 1
    decreases |ws|
  {
    if ws == [] then ds[0] else ds[0] + ws[0] + Interleave(ds[1..], ws[1..])
  }

  /** The text with every single quote turned into a double quote. */
  function Swapped(s: string): (t: string)
    ensures |t| == |s|
    ensures forall i :: 0 <= i < |s| ==> t[i] == if s[i] == '\'' then '"' else s[i]
  {
    seq(|s|, i requires 0 <= i < |s| => if s[i] == '\'' then '"' else s[i])
  }

  /** The delimiters Python prints around the keys and values of a flat
      dictionary of strings, with either quote on either side: exactly the
      chain's patterns and their replacements. */
  const Delimiters: set<string> :=
    (set k | 0 <= k < |Rewrites| :: Rewrites[k].0) + (set k | 0 <= k < |Rewrites| :: Rewrites[k].1)

  /** A delimiter is a brace with one quote, or two quotes around a colon
      or a comma and a space. */
  predicate Shaped(d: string) {
    (|d| == 2 && (d[0] == '{' || d[1] == '}')) || (|d| == 4 && '{' !in d && '}' !in d)
  }

  /** A text that cannot start an occurrence of `pat` anywhere is skipped
      over unchanged. */
  lemma {:induction false} ReplaceAllSkip(a: string, b: string, pat: string, rep: string)
    requires |pat| > 0 && pat[0] !in a
    ensures ReplaceAll(a + b, pat, rep) == a + ReplaceAll(b, pat, rep)
    decreases |a|
  {
    var s := a + b;
    if a == [] {
      assert s == b;
    } else if |s| < |pat| {
      assert ReplaceAll(b, pat, rep) == b;
    } else {
      assert s[..|pat|][0] == a[0];
      assert s[1..] == a[1..] + b;
      assert pat[0] !in a[1..] by {
        assert a == [a[0]] + a[1..];
      }
      ReplaceAllSkip(a[1..], b, pat, rep);
      assert a == [a[0]] + a[1..];
    }
  }

  /** When the second part starts with a character that only ever begins
      `pat`, no occurrence spans the boundary, so each part is rewritten on
      its own. */
  lemma {:induction false} ReplaceAllSplit(x: string, y: string, pat: string, rep: string)
    requires |pat| > 0
    requires y == [] || y[0] !in pat[1..]
    ensures ReplaceAll(x + y, pat, rep) == ReplaceAll(x, pat, rep) + ReplaceAll(y, pat, rep)
    decreases |x|
  {
    var s := x + y;
    if x == [] {
      assert s == y;
    } else if |s| < |pat| {
    } else if |x| < |pat| {
      // an occurrence at the front would need `y[0]` inside the pattern
      assert s[..|pat|] != pat by {
        assert s[..|pat|][|x|] == y[0];
        assert pat[1..][|x| - 1] == pat[|x|];
      }
      assert s[1..] == x[1..] + y;
      ReplaceAllSplit(x[1..], y, pat, rep);
      SkipFront(s, pat, rep);
      assert x == [x[0]] + x[1..];
    } else if x[..|pat|] == pat {
      assert s[..|pat|] == x[..|pat|] && s[|pat|..] == x[|pat|..] + y;
      ReplaceAllSplit(x[|pat|..], y, pat, rep);
      MatchFront(s, pat, rep);
      MatchFront(x, pat, rep);
    } else {
      assert s[..|pat|] == x[..|pat|] && s[1..] == x[1..] + y;
      ReplaceAllSplit(x[1..], y, pat, rep);
      SkipFront(s, pat, rep);
      SkipFront(x, pat, rep);
    }
  }

  /** Where `pat` does not open the text, its first character is kept. */
  lemma SkipFront(s: string, pat: string, rep: string)
    requires |pat| > 0 && |s| >= |pat| && s[..|pat|] != pat
    ensures ReplaceAll(s, pat, rep) == [s[0]] + ReplaceAll(s[1..], pat, rep)
  {
  }

  /** Where `pat` opens the text, it becomes `rep`. */
  lemma MatchFront(s: string, pat: string, rep: string)
    requires |pat| > 0 && |s| >= |pat| && s[..|pat|] == pat
    ensures ReplaceAll(s, pat, rep) == rep + ReplaceAll(s[|pat|..], pat, rep)
  {
  }

  /** A text missing the first or the last character of `pat` holds no
      occurrence of it. */
  lemma {:induction false} ReplaceAllAbsent(d: string, pat: string, rep: string)
    requires |pat| > 0 && (pat[0] !in d || pat[|pat| - 1] !in d)
    ensures ReplaceAll(d, pat, rep) == d
    decreases |d|
  {
    if |d| >= |pat| {
      assert d[..|pat|] != pat by {
        assert d[..|pat|][0] == d[0] && d[..|pat|][|pat| - 1] == d[|pat| - 1];
      }
      assert d == [d[0]] + d[1..];
      ReplaceAllAbsent(d[1..], pat, rep);
    }
  }

  /** Each text of `ds` under one replacement. */
  function ReplaceEach(ds: seq<string>, pat: string, rep: string): (es: seq<string>)
    requires |pat| > 0
    ensures |es| == |ds| && forall k :: 0 <= k < |ds| ==> es[k] == ReplaceAll(ds[k], pat, rep)
  {
    seq(|ds|, k requires 0 <= k < |ds| => ReplaceAll(ds[k], pat, rep))
  }

  /** Each text of `ds` under the whole chain. */
  function ApplyEach(ds: seq<string>, rules: seq<(string, string)>): (es: seq<string>)
    requires forall k :: 0 <= k < |rules| ==> |rules[k].0| > 0
    ensures |es| == |ds| && forall k :: 0 <= k < |ds| ==> es[k] == ApplyRewrites(ds[k], rules)
  {
    seq(|ds|, k requires 0 <= k < |ds| => ApplyRewrites(ds[k], rules))
  }

  /** Each text of `ds` with its single quotes doubled. */
  function SwapEach(ds: seq<string>): (es: seq<string>)
    ensures |es| == |ds| && forall k :: 0 <= k < |ds| ==> es[k] == Swapped(ds[k])
  {
    seq(|ds|, k requires 0 <= k < |ds| => Swapped(ds[k]))
  }

  /** A pattern made of quotes, braces and the punctuation between them,
      starting with a brace or a quote. */
  predicate Punctuation(pat: string) {
    |pat| > 0 && pat[0] in "{'\"" && forall j :: 0 <= j < |pat| ==> pat[j] in "{'\":, }"
  }

  /** One replacement rewrites each delimiter and leaves every word alone. */
  lemma {:induction false} ReplaceAllInterleave(ds: seq<string>, ws: seq<string>, pat: string, rep: string)
    requires |ds| == |ws| + 1 && Punctuation(pat)
    requires forall k :: 0 <= k < |ws| ==> Word(ws[k])
    ensures ReplaceAll(Interleave(ds, ws), pat, rep) == Interleave(ReplaceEach(ds, pat, rep), ws)
    decreases |ws|
  {
    var each := ReplaceEach(ds, pat, rep);
    if ws != [] {
      var w, tail := ws[0], Interleave(ds[1..], ws[1..]);
      assert Word(w);
      assert w[0] !in pat[1..];
      ReplaceAllSplit(ds[0], w + tail, pat, rep);
      ReplaceAllSkip(w, tail, pat, rep);
      ReplaceAllInterleave(ds[1..], ws[1..], pat, rep);
      assert each[1..] == ReplaceEach(ds[1..], pat, rep);
      assert Interleave(ds, ws) == ds[0] + (w + tail);
    }
  }

  /** Every pattern of the chain is punctuation. */
  lemma RewritesPunctuation()
    ensures forall k :: 0 <= k < |Rewrites| ==> |Rewrites[k].0| > 0 && Punctuation(Rewrites[k].0)
  {
  }

  /** The whole chain rewrites each delimiter and leaves every word alone. */
  lemma {:induction false} ApplyRewritesInterleave(ds: seq<string>, ws: seq<string>, rules: seq<(string, string)>)
    requires |ds| == |ws| + 1
    requires forall k :: 0 <= k < |ws| ==> Word(ws[k])
    requires forall k :: 0 <= k < |rules| ==> |rules[k].0| > 0 && Punctuation(rules[k].0)
    ensures ApplyRewrites(Interleave(ds, ws), rules) == Interleave(ApplyEach(ds, rules), ws)
    decreases |rules|
  {
    if rules != [] {
      var (pat, rep) := rules[0];
      var next := ReplaceEach(ds, pat, rep);
      ReplaceAllInterleave(ds, ws, pat, rep);
      assert ApplyRewrites(Interleave(ds, ws), rules) == ApplyRewrites(Interleave(next, ws), rules[1..]);
      ApplyRewritesInterleave(next, ws, rules[1..]);
      assert ApplyEach(next, rules[1..]) == ApplyEach(ds, rules);
    } else {
      assert ApplyEach(ds, rules) == ds;
    }
  }

  /** A text without single quotes is its own swap. */
  lemma SwappedQuoteFree(s: string)
    requires '\'' !in s
    ensures Swapped(s) == s
  {
  }

  /** A swapped text has no single quote left to swap. */
  lemma SwappedTwice(s: string)
    ensures Swapped(Swapped(s)) == Swapped(s)
  {
  }

  /** Swapping distributes over concatenation. */
  lemma SwappedConcat(a: string, b: string)
    ensures Swapped(a + b) == Swapped(a) + Swapped(b)
  {
    assert forall i :: 0 <= i < |a + b| ==> Swapped(a + b)[i] == (Swapped(a) + Swapped(b))[i];
  }

  /** A rule whose pattern is a delimiter leaves every other delimiter
      alone: a four-character delimiter holds no brace, and a delimiter no
      longer than the pattern matches it only by being it. */
  lemma RuleOnDelimiter(d: string, pat: string, rep: string)
    requires Shaped(d) && Shaped(pat)
    ensures ReplaceAll(d, pat, rep) == if d == pat then rep else d
  {
    if d == pat {
      assert d[..|pat|] == pat && d[|pat|..] == [];
    } else if |d| <= |pat| {
      if |d| == |pat| {
        assert d[..|pat|] == d;
        assert ReplaceAll(d[1..], pat, rep) == d[1..];
        assert d == [d[0]] + d[1..];
      }
    } else {
      assert '{' !in d && '}' !in d;
      assert pat[0] == '{' || pat[|pat| - 1] == '}';
      ReplaceAllAbsent(d, pat, rep);
    }
  }

  /** A chain of rules that each turn one delimiter into its swap rewrites
      a delimiter into its swap when some rule names it, and leaves it
      alone otherwise. */
  lemma {:induction false} ChainOnDelimiter(d: string, rules: seq<(string, string)>)
    requires Shaped(d)
    requires forall k :: 0 <= k < |rules| ==>
               Shaped(rules[k].0) && '\'' in rules[k].0 &&
               Shaped(rules[k].1) && rules[k].1 == Swapped(rules[k].0)
    ensures ApplyRewrites(d, rules) ==
            if exists k :: 0 <= k < |rules| && rules[k].0 == d then Swapped(d) else d
    decreases |rules|
  {
    if rules != [] {
      var (pat, rep) := rules[0];
      RuleOnDelimiter(d, pat, rep);
      var next := ReplaceAll(d, pat, rep);
      ChainOnDelimiter(next, rules[1..]);
      if d == pat {
        assert '\'' !in rep;
        assert !exists k :: 0 <= k < |rules[1..]| && rules[1..][k].0 == rep;
        SwappedQuoteFree(rep);
      } else {
        assert (exists k :: 0 <= k < |rules[1..]| && rules[1..][k].0 == d) <==>
               (exists k :: 0 <= k < |rules| && rules[k].0 == d) by {
          if exists k :: 0 <= k < |rules| && rules[k].0 == d {
            var k :| 0 <= k < |rules| && rules[k].0 == d;
            assert rules[1..][k - 1] == rules[k];
          }
        }
      }
    }
  }

  /** Each rule's pattern and replacement are delimiters, the replacement
      being the pattern with its single quotes doubled. */
  lemma RewritesOnDelimiters()
    ensures forall k :: 0 <= k < |Rewrites| ==>
              Shaped(Rewrites[k].0) && '\'' in Rewrites[k].0 &&
              Shaped(Rewrites[k].1) && Rewrites[k].1 == Swapped(Rewrites[k].0)
  {
    forall k | 0 <= k < |Rewrites|
      ensures Shaped(Rewrites[k].0) && '\'' in Rewrites[k].0 && Shaped(Rewrites[k].1)
      ensures Rewrites[k].1 == Swapped(Rewrites[k].0)
    {
      var (pat, rep) := Rewrites[k];
      assert |rep| == |pat|;
      assert forall i :: 0 <= i < |pat| ==> rep[i] == if pat[i] == '\'' then '"' else pat[i];
    }
  }

  /** Each delimiter reaches `JSON.parse` with its single quotes doubled. */
  lemma DelimiterRewrites(d: string)
    requires d in Delimiters
    ensures RewriteQuotes(d) == Swapped(d)
  {
    RewritesOnDelimiters();
    var k :| 0 <= k < |Rewrites| && (d == Rewrites[k].0 || d == Rewrites[k].1);
    ChainOnDelimiter(d, Rewrites);
    if d != Rewrites[k].0 {
      SwappedTwice(Rewrites[k].0);
    }
  }

  /** Swapping quotes in a printed dictionary swaps them in its delimiters
      only, since its words hold none. */
  lemma {:induction false} SwappedInterleave(ds: seq<string>, ws: seq<string>)
    requires |ds| == |ws| + 1
    requires forall k :: 0 <= k < |ws| ==> Word(ws[k])
    ensures Swapped(Interleave(ds, ws)) == Interleave(SwapEach(ds), ws)
    decreases |ws|
  {
    if ws != [] {
      var w, tail := ws[0], Interleave(ds[1..], ws[1..]);
      assert Word(w);
      SwappedInterleave(ds[1..], ws[1..]);
      assert SwapEach(ds)[1..] == SwapEach(ds[1..]);
      SwappedConcat(ds[0], w);
      SwappedConcat(ds[0] + w, tail);
      SwappedQuoteFree(w);
    }
  }

  /** A dictionary of plain strings printed by Python, with either quote
      around each key and value, reaches `JSON.parse` with every single
      quote turned into a double quote: the JSON text of that dictionary. */
  lemma PrintedDictionary(ds: seq<string>, ws: seq<string>)
    requires |ds| == |ws| + 1
    requires forall k :: 0 <= k < |ds| ==> ds[k] in Delimiters
    requires forall k :: 0 <= k < |ws| ==> Word(ws[k])
    ensures RewriteQuotes(Interleave(ds, ws)) == Swapped(Interleave(ds, ws))
  {
    RewritesPunctuation();
    ApplyRewritesInterleave(ds, ws, Rewrites);
    forall k | 0 <= k < |ds| ensures ApplyEach(ds, Rewrites)[k] == SwapEach(ds)[k] {
      DelimiterRewrites(ds[k]);
    }
    InterleaveAlike(ApplyEach(ds, Rewrites), SwapEach(ds), ws);
    SwappedInterleave(ds, ws);
  }

  /** Delimiters equal one by one print the same dictionary. */
  lemma {:induction false} InterleaveAlike(ds: seq<string>, es: seq<string>, ws: seq<string>)
    requires |ds| == |es| == |ws| + 1
    requires forall k :: 0 <= k < |ds| ==> ds[k] == es[k]
    ensures Interleave(ds, ws) == Interleave(es, ws)
    decreases |ws|
  {
    if ws != [] {
      InterleaveAlike(ds[1..], es[1..], ws[1..]);
    }
  }

  /** A printed two-entry dictionary, piece by piece. */
  lemma InterleaveFour(d0: string, d1: string, d2: string, d3: string, d4: string,
                       w0: string, w1: string, w2: string, w3: string)
    ensures Interleave([d0, d1, d2, d3, d4], [w0, w1, w2, w3]) ==
            d0 + w0 + d1 + w1 + d2 + w2 + d3 + w3 + d4
  {
    assert [d0, d1, d2, d3, d4][1..] == [d1, d2, d3, d4] && [w0, w1, w2, w3][1..] == [w1, w2, w3];
    assert [d1, d2, d3, d4][1..] == [d2, d3, d4] && [w1, w2, w3][1..] == [w2, w3];
    assert [d2, d3, d4][1..] == [d3, d4] && [w2, w3][1..] == [w3];
    assert [d3, d4][1..] == [d4] && [w3][1..] == [];
    assert Interleave([d4], []) == d4;
    assert Interleave([d3, d4], [w3]) == d3 + w3 + d4;
    assert Interleave([d2, d3, d4], [w2, w3]) == d2 + w2 + (d3 + w3 + d4);
    assert Interleave([d1, d2, d3, d4], [w1, w2, w3]) == d1 + w1 + (d2 + w2 + (d3 + w3 + d4));
  }

  /** The delimiters of a dictionary printed with single quotes. */
  lemma SingleQuotedDelimiters()
    ensures "{'" in Delimiters && "': '" in Delimiters && "', '" in Delimiters && "'}" in Delimiters
  {
    assert Rewrites[0].0 == "{'" && Rewrites[1].0 == "': '";
    assert Rewrites[5].0 == "', '" && Rewrites[7].0 == "'}";
  }

  /** Those delimiters with their single quotes doubled. */
  lemma SwappedSingleQuoted()
    ensures Swapped("{'") == "{\"" && Swapped("': '") == "\": \""
    ensures Swapped("', '") == "\", \"" && Swapped("'}") == "\"}"
  {
    assert Swapped("{'") == ['{', '"'];
    assert Swapped("': '") == ['"', ':', ' ', '"'];
    assert Swapped("', '") == ['"', ',', ' ', '"'];
    assert Swapped("'}") == ['"', '}'];
  }

  /** Swapping the quotes of text built from delimiters and words swaps
      them in the delimiters only. */
  lemma SwappedPiece(prefix: string, d: string, w: string)
    requires '\'' !in w
    ensures Swapped(prefix + d + w) == Swapped(prefix) + Swapped(d) + w
  {
    SwappedConcat(prefix + d, w);
    SwappedConcat(prefix, d);
    SwappedQuoteFree(w);
  }

  /** The two-entry dictionary `{'k': 'v', 'k2': 'v2'}` reaches `JSON.parse`
      as `{"k": "v", "k2": "v2"}`. */
  lemma TwoEntries(k: string, v: string, k2: string, v2: string)
    requires Word(k) && Word(v) && Word(k2) && Word(v2)
    ensures RewriteQuotes("{'" + k + "': '" + v + "', '" + k2 + "': '" + v2 + "'}") ==
            "{\"" + k + "\": \"" + v + "\", \"" + k2 + "\": \"" + v2 + "\"}"
  {
    TwoEntriesPrinted(k, v, k2, v2);
    TwoEntriesSwapped(k, v, k2, v2);
  }

  /** The chain turns that dictionary into its quote-swapped text. */
  lemma TwoEntriesPrinted(k: string, v: string, k2: string, v2: string)
    requires Word(k) && Word(v) && Word(k2) && Word(v2)
    ensures var raw := "{'" + k + "': '" + v + "', '" + k2 + "': '" + v2 + "'}";
            RewriteQuotes(raw) == Swapped(raw)
  {
    var ds := ["{'", "': '", "', '", "': '", "'}"];
    var ws := [k, v, k2, v2];
    SingleQuotedDelimiters();
    PrintedDictionary(ds, ws);
    InterleaveFour("{'", "': '", "', '", "': '", "'}", k, v, k2, v2);
  }

  /** The quote-swapped text of that dictionary is its JSON text. */
  lemma TwoEntriesSwapped(k: string, v: string, k2: string, v2: string)
    requires Word(k) && Word(v) && Word(k2) && Word(v2)
    ensures Swapped("{'" + k + "': '" + v + "', '" + k2 + "': '" + v2 + "'}") ==
            "{\"" + k + "\": \"" + v + "\", \"" + k2 + "\": \"" + v2 + "\"}"
  {
    SwappedSingleQuoted();
    assert '\'' !in k && '\'' !in v && '\'' !in k2 && '\'' !in v2;
    var p1 := "{'" + k;
    var p2 := p1 + "': '" + v;
    var p3 := p2 + "', '" + k2;
    var p4 := p3 + "': '" + v2;
    SwappedPiece([], "{'", k);
    assert [] + "{'" + k == p1;
    SwappedPiece(p1, "': '", v);
    SwappedPiece(p2, "', '", k2);
    SwappedPiece(p3, "': '", v2);
    SwappedConcat(p4, "'}");
  }

  /** What axios hands `cleanJSON`: the body as text, or an already
      decoded object (which has no `replace`). */
  datatype ResponseData = TextData(text: string) | ObjectData

  /** `cleanJSON`'s outcome: the parsed value, or the error it throws. */
  datatype Parsed<T> = Parsed(value: T) | Threw(message: string)

  const InvalidFormat: string := "Invalid server response format"

  /** `cleanJSON`: rewrites the quotes and parses; anything thrown inside
      (`replace` on a non-string, `JSON.parse` rejecting the text) becomes
      one error. `parse` is `JSON.parse`, `None` where it throws. */
  function CleanJSON<T>(raw: ResponseData, parse: string -> Option<T>): (r: Parsed<T>)
    ensures r.Threw? ==> r.message == InvalidFormat
    ensures r.Parsed? <==> raw.TextData? && parse(RewriteQuotes(raw.text)).Some?
    ensures r.Parsed? ==> r.value == parse(RewriteQuotes(raw.text)).value
  {
    if raw.ObjectData? then Threw(InvalidFormat)
    else match parse(RewriteQuotes(raw.text))
      case None => Threw(InvalidFormat)
      case Some(v) => Parsed(v)
  }
}
