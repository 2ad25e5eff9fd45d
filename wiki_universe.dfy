/** The ticker universe of the global screener: index constituents scraped
    from Wikipedia tables, normalised to the provider's symbol convention,
    joined with a manual list and deduplicated. */
module WikiUniverse {
  import opened Fundamentals

  /** `t.replace('.', '-')` */
  function ReplaceDots(s: string): (r: string)
    ensures |r| == |s|
    ensures forall i :: 0 <= i < |s| ==> r[i] == (if s[i] == '.' then '-' else s[i])
  {
    if s == [] then []
    else [if s[0] == '.' then '-' else s[0]] + ReplaceDots(s[1..])
  }

  /** Whether every cell of a scraped column is a string. */
  predicate AllText(cells: seq<Val>)
  {
    forall i :: 0 <= i < |cells| ==> cells[i].VStr?
  }

  /** `get_tickers_from_wiki(url, table_index, symbol_col, suffix)`: `column`
      is the scraped `df[symbol_col]`, None when the page, the table or the
      column cannot be read. For scraped cells `VStr` stands for any Python
      str, numeric-looking or not; a cell of any other type makes `.replace`
      raise, which empties the whole contribution. */
  function TickersFromWiki(column: Option<seq<Val>>, suffix: string): (r: seq<string>)
    ensures column.None? || !AllText(column.value) ==> r == []
    ensures column.Some? && AllText(column.value) ==> |r| == |column.value|
  {
    if column.None? || !AllText(column.value) then []
    else
      var cells := column.value;
      seq(|cells|, i requires 0 <= i < |cells| => ReplaceDots(cells[i].str) + suffix)
  }

  /** Each cell of a readable column becomes one ticker: the cell with every
      '.' written '-', followed by the exchange suffix. */
  lemma TickersFromWikiCells(column: Option<seq<Val>>, suffix: string)
    requires column.Some? && AllText(column.value)
    ensures var r := TickersFromWiki(column, suffix);
            forall i :: 0 <= i < |r| ==>
              var s := column.value[i].str;
              |r[i]| == |s| + |suffix| && r[i][|s|..] == suffix &&
              forall k :: 0 <= k < |s| ==> r[i][k] == (if s[k] == '.' then '-' else s[k])
  {
    var r := TickersFromWiki(column, suffix);
    forall i | 0 <= i < |r|
      ensures var s := column.value[i].str;
              |r[i]| == |s| + |suffix| && r[i][|s|..] == suffix
    {
      var s := column.value[i].str;
      assert r[i] == ReplaceDots(s) + suffix;
    }
  }

  /** The scraped symbol columns of the five index pages, in the order they
      are fetched: S&P 500, Nasdaq-100, CAC 40 (.PA), DAX (.DE),
      FTSE 100 (.L). A str cell is a `VStr` even when float() would accept
      it. */
  datatype IndexPages = IndexPages(
    sp500: Option<seq<Val>>,
    nasdaq100: Option<seq<Val>>,
    cac40: Option<seq<Val>>,
    dax: Option<seq<Val>>,
    ftse100: Option<seq<Val>>)

  /** Large companies of exchanges the scraper does not cover (Japan,
      Switzerland, Canada, Australia, Hong Kong), already in provider form. */
  const ManualTickers: seq<string> := [
    "7203.T", "6758.T", "9984.T", "6861.T", "8306.T", "9432.T", "7974.T",
    "NESN.SW", "NOVN.SW", "ROG.SW", "UBSG.SW", "ZURN.SW",
    "RY.TO", "TD.TO", "ENB.TO",
    "BHP.AX", "CBA.AX", "CSL.AX", "WBC.AX",
    "0700.HK", "9988.HK", "1299.HK"
  ]

  /** Everything `all_tickers` holds after the six `.extend` calls. */
  function Contributions(pages: IndexPages): seq<string>
  {
    TickersFromWiki(pages.sp500, "") + TickersFromWiki(pages.nasdaq100, "") +
    TickersFromWiki(pages.cac40, ".PA") + TickersFromWiki(pages.dax, ".DE") +
    TickersFromWiki(pages.ftse100, ".L") + ManualTickers
  }

  /** The distinct non-empty tickers of all contributions. */
  function Universe(pages: IndexPages): set<string>
  {
    set t | t in Contributions(pages) && t != ""
  }

  predicate NoDuplicates(s: seq<string>)
  {
    forall i, j :: 0 <= i < j < |s| ==> s[i] != s[j]
  }

  /** `list(set(filter(None, all_tickers)))`: the distinct non-empty
      strings, in an order chosen here without constraint, as the iteration
      order of a Python set is unspecified. */
  method Deduplicate(allTickers: seq<string>) returns (cleanTickers: seq<string>)
    ensures NoDuplicates(cleanTickers)
    ensures forall t :: t in cleanTickers <==> t in allTickers && t != ""
  {
    var unique := set t | t in allTickers && t != "";
    var remaining := unique;
    cleanTickers := [];
    while remaining != {}
      invariant remaining <= unique
      invariant forall t :: t in cleanTickers <==> t in unique - remaining
      invariant NoDuplicates(cleanTickers)
      decreases |remaining|
    {
      var t :| t in remaining;
      assert t !in cleanTickers;
      cleanTickers := cleanTickers + [t];
      remaining := remaining - {t};
    }
  }

  /** `get_all_global_tickers`: the five index pages and the manual list,
      cleaned and deduplicated. */
  method GetAllGlobalTickers(pages: IndexPages) returns (cleanTickers: seq<string>)
    ensures NoDuplicates(cleanTickers)
    ensures forall t :: t in cleanTickers <==> t in Universe(pages)
  {
    var allTickers: seq<string> := [];
    allTickers := allTickers + TickersFromWiki(pages.sp500, "");
    assert allTickers == TickersFromWiki(pages.sp500, "");
    allTickers := allTickers + TickersFromWiki(pages.nasdaq100, "");
    allTickers := allTickers + TickersFromWiki(pages.cac40, ".PA");
    allTickers := allTickers + TickersFromWiki(pages.dax, ".DE");
    allTickers := allTickers + TickersFromWiki(pages.ftse100, ".L");
    allTickers := allTickers + ManualTickers;
    assert allTickers == Contributions(pages);

    cleanTickers := Deduplicate(allTickers);
  }

  /** Membership in the universe, source by source. */
  lemma UniverseMembership(pages: IndexPages, t: string)
    ensures t in Universe(pages) <==>
              t != "" &&
              (t in TickersFromWiki(pages.sp500, "") || t in TickersFromWiki(pages.nasdaq100, "") ||
               t in TickersFromWiki(pages.cac40, ".PA") || t in TickersFromWiki(pages.dax, ".DE") ||
               t in TickersFromWiki(pages.ftse100, ".L") || t in ManualTickers)
  {
  }

  /** All manual tickers are in the universe, whichever pages fail; they are
      taken as written, dots included. */
  lemma {:induction false} ManualTickersAlwaysIncluded(pages: IndexPages)
    ensures forall t :: t in ManualTickers ==> t in Universe(pages)
    ensures "7203.T" in Universe(pages)
  {
    var c := Contributions(pages);
    forall t | t in ManualTickers
      ensures t in Universe(pages)
    {
      assert t != "";
      assert t in c;
    }
  }

  /** With every page down the universe is exactly the manual list. */
  lemma AllPagesDown()
    ensures Universe(IndexPages(None, None, None, None, None)) == set t | t in ManualTickers
  {
    var pages := IndexPages(None, None, None, None, None);
    assert Contributions(pages) == ManualTickers;
    forall t | t in ManualTickers
      ensures t != ""
    {
    }
  }

  /** Two symbols that differ only in writing '.' or '-' normalise to the
      same ticker, so the universe holds it once. */
  lemma {:induction false} DotDashVariantsMerge(s1: string, s2: string)
    requires |s1| == |s2|
    requires forall i :: 0 <= i < |s1| ==> s1[i] == s2[i] || (s1[i] in {'.', '-'} && s2[i] in {'.', '-'})
    ensures ReplaceDots(s1) == ReplaceDots(s2)
  {
    var r1, r2 := ReplaceDots(s1), ReplaceDots(s2);
    forall i | 0 <= i < |s1|
      ensures r1[i] == r2[i]
    {
    }
  }

  /** A normalised symbol holds no '.' before its suffix, and normalising
      twice changes nothing. */
  lemma {:induction false} ReplaceDotsNormalises(s: string)
    ensures '.' !in ReplaceDots(s)
    ensures ReplaceDots(ReplaceDots(s)) == ReplaceDots(s)
  {
    var r := ReplaceDots(s);
    forall i | 0 <= i < |r|
      ensures r[i] != '.'
    {
    }
  }

  /** An example of the merge: "BRK.B" scraped from one index and "BRK-B"
      from another contribute the same ticker, which the universe then
      holds once. */
  lemma BrkVariantsMerge()
    ensures TickersFromWiki(Some([VStr("BRK.B")]), "") == ["BRK-B"]
    ensures TickersFromWiki(Some([VStr("BRK-B")]), "") == ["BRK-B"]
  {
    SingleCell("BRK.B", "");
    SingleCell("BRK-B", "");
    BrkNormalised();
  }

  /** A column of one text cell contributes one ticker. */
  lemma SingleCell(cell: string, suffix: string)
    ensures TickersFromWiki(Some([VStr(cell)]), suffix) == [ReplaceDots(cell) + suffix]
  {
    var r := TickersFromWiki(Some([VStr(cell)]), suffix);
    assert r[0] == ReplaceDots(cell) + suffix;
  }

  /** Both spellings of the Berkshire class-B symbol normalise to "BRK-B". */
  lemma BrkNormalised()
    ensures ReplaceDots("BRK.B") + "" == "BRK-B"
    ensures ReplaceDots("BRK-B") + "" == "BRK-B"
  {
    assert ReplaceDots("BRK.B") == "BRK-B";
    assert ReplaceDots("BRK-B") == "BRK-B";
  }
}
