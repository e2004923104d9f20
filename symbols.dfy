/** The market symbol as sent with the leverage request: the slash and the
    settlement suffix removed ("BTC/USD:USD" becomes "BTCUSD"). */
module Symbols {

  /** Replace every non-overlapping occurrence of `pat` in `s` by `rep`, scanning
      from the left, as Python's `str.replace` does for a non-empty pattern. */
  function Replace(s: string, pat: string, rep: string): string
    requires |pat| > 0
    decreases |s|
  {
    if |s| < |pat| then s
    else if s[..|pat|] == pat then rep + Replace(s[|pat|..], pat, rep)
    else [s[0]] + Replace(s[1..], pat, rep)
  }

  /** The symbol passed with the exchange-specific leverage request. */
  function LeverageSymbol(symbol: string): string
  {
    Replace(Replace(symbol, "/", ""), ":USD", "")
  }

  /** Replacement only keeps characters of the input or of the replacement. */
  lemma {:induction false} ReplaceAddsNothing(s: string, pat: string, rep: string, c: char)
    requires |pat| > 0
    requires c in Replace(s, pat, rep)
    ensures c in s || c in rep
    decreases |s|
  {
    if |s| < |pat| {
    } else if s[..|pat|] == pat {
      if c !in rep {
        ReplaceAddsNothing(s[|pat|..], pat, rep, c);
      }
    } else if c != s[0] {
      ReplaceAddsNothing(s[1..], pat, rep, c);
    }
  }

  /** Deleting a one-character pattern leaves none of that character. */
  lemma {:induction false} DeleteCharRemovesAll(s: string, c: char)
    ensures c !in Replace(s, [c], "")
    decreases |s|
  {
    if |s| >= 1 {
      DeleteCharRemovesAll(s[1..], c);
    }
  }

  /** Replacement leaves a string that does not contain the pattern's first
      character untouched. */
  lemma {:induction false} ReplaceAbsent(s: string, pat: string, rep: string)
    requires |pat| > 0 && pat[0] !in s
    ensures Replace(s, pat, rep) == s
    decreases |s|
  {
    if |s| >= |pat| {
      assert s[..|pat|][0] == s[0];
      ReplaceAbsent(s[1..], pat, rep);
    }
  }

  /** The leverage symbol never contains a slash, whatever symbol is configured. */
  lemma {:induction false} NoSlashInLeverageSymbol(symbol: string)
    ensures '/' !in LeverageSymbol(symbol)
  {
    var once := Replace(symbol, "/", "");
    DeleteCharRemovesAll(symbol, '/');
    if '/' in LeverageSymbol(symbol) {
      ReplaceAddsNothing(once, ":USD", "", '/');
    }
  }

  /** A symbol with neither a slash nor a colon is sent as it is. */
  lemma {:induction false} PlainSymbolUnchanged(symbol: string)
    requires '/' !in symbol && ':' !in symbol
    ensures LeverageSymbol(symbol) == symbol
  {
    ReplaceAbsent(symbol, "/", "");
    ReplaceAbsent(symbol, ":USD", "");
  }

  /** A prefix free of the pattern's first character passes through unchanged. */
  lemma {:induction false} ReplaceSkipsPrefix(a: string, s: string, pat: string, rep: string)
    requires |pat| > 0 && pat[0] !in a
    ensures Replace(a + s, pat, rep) == a + Replace(s, pat, rep)
    decreases |a|
  {
    if a != [] {
      var t := a + s;
      assert t[0] == a[0] && a[0] != pat[0];
      assert t[1..] == a[1..] + s;
      ReplaceSkipsPrefix(a[1..], s, pat, rep);
      if |t| >= |pat| {
        assert t[..|pat|][0] == a[0];
        assert Replace(t, pat, rep) == [a[0]] + (a[1..] + Replace(s, pat, rep));
        assert [a[0]] + (a[1..] + Replace(s, pat, rep)) == a + Replace(s, pat, rep);
      } else {
        assert Replace(s, pat, rep) == s;
        assert Replace(t, pat, rep) == t;
      }
    } else {
      assert a + s == s;
    }
  }

  /** An occurrence at the front is replaced and the scan resumes after it. */
  lemma {:induction false} ReplaceAtFront(s: string, pat: string, rep: string)
    requires |pat| > 0
    ensures Replace(pat + s, pat, rep) == rep + Replace(s, pat, rep)
  {
    assert (pat + s)[..|pat|] == pat;
    assert (pat + s)[|pat|..] == s;
  }

  /** Deleting the slash from "X/USD:USD" leaves "XUSD:USD". */
  lemma {:induction false} SlashDeleted(base: string)
    requires '/' !in base
    ensures Replace(base + "/USD:USD", "/", "") == (base + "USD") + ":USD"
  {
    assert base + "/USD:USD" == base + ("/" + "USD:USD");
    ReplaceSkipsPrefix(base, "/" + "USD:USD", "/", "");
    ReplaceAtFront("USD:USD", "/", "");
    ReplaceAbsent("USD:USD", "/", "");
  }

  /** Deleting a trailing ":USD" from a string without colons leaves the rest. */
  lemma {:induction false} SuffixDeleted(kept: string)
    requires ':' !in kept
    ensures Replace(kept + ":USD", ":USD", "") == kept
  {
    assert kept + ":USD" == kept + (":USD" + "");
    ReplaceSkipsPrefix(kept, ":USD" + "", ":USD", "");
    ReplaceAtFront("", ":USD", "");
  }

  /** Every market "X/USD:USD" over a base free of slashes and colons is sent as
      "XUSD". */
  lemma {:induction false} MarketSymbol(base: string)
    requires '/' !in base && ':' !in base
    ensures LeverageSymbol(base + "/USD:USD") == base + "USD"
  {
    SlashDeleted(base);
    assert ':' !in base + "USD";
    SuffixDeleted(base + "USD");
  }

  /** The three configured markets. */
  lemma MarketSymbols()
    ensures LeverageSymbol("BTC/USD:USD") == "BTCUSD"
    ensures LeverageSymbol("ETH/USD:USD") == "ETHUSD"
    ensures LeverageSymbol("SOL/USD:USD") == "SOLUSD"
  {
    assert "BTC/USD:USD" == "BTC" + "/USD:USD";
    MarketSymbol("BTC");
    assert "ETH/USD:USD" == "ETH" + "/USD:USD";
    MarketSymbol("ETH");
    assert "SOL/USD:USD" == "SOL" + "/USD:USD";
    MarketSymbol("SOL");
  }

  /** The suffix can survive: removing ":USD" from "::USDUSD" joins the leftover
      ':' with the trailing "USD". */
  lemma SuffixCanSurvive()
    ensures LeverageSymbol("::USDUSD") == ":USD"
  {
    var symbol := "::USDUSD";
    ReplaceAbsent(symbol, "/", "");
    assert symbol == ":" + (":USD" + "USD");
    assert symbol[..4] != ":USD" by { assert symbol[..4][1] == ':'; }
    assert symbol[1..] == ":USD" + "USD";
    ReplaceAtFront("USD", ":USD", "");
    ReplaceAbsent("USD", ":USD", "");
    assert Replace(symbol, ":USD", "") == ":" + ("" + "USD");
  }
}
