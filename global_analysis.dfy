/** The global screener: the verdict on one security (`process_ticker`) and
    the capped scan that filters, ranks and counts the matches
    (`run_global_analysis`). The provider's answers for a ticker are the
    `Stock` value it returns; the ten-thread fan-out is a sequential map,
    since `executor.map` keeps the input order. */
module GlobalAnalysis {
  import opened Fundamentals
  import opened Criteria
  import opened BuffettRatios
  import opened WikiUniverse
  import opened PeSort

  /** Sectors rejected before any ratio is computed. */
  const ExcludedSectors: seq<string> := [
    "Technology", "Biotechnology", "Basic Materials", "Energy",
    "Oil & Gas", "Mining", "Semiconductors", "Aerospace & Defense",
    "Capital Goods", "Industrials", "Real Estate", "Telecommunication Services"
  ]

  /** Sectors exempt from the debt-to-equity ceiling. */
  const ExemptedDebtSectors: seq<string> := ["Financial Services", "Utilities"]

  /** Sentinel for a missing trailing P/E: fails 0 < P/E < 15. */
  const PeMissing: real := 9999.0

  /** At most this many tickers are scanned in one run. */
  const ScanCap: nat := 2500

  /** What the provider answers for one ticker. `info` is None when
      `stock.info` raises; it is read once, so the D/E fallback sees the same
      record. `lastPrice` is None when `stock.fast_info.last_price` raises or
      is not a number (then `round(price, 2)` raises). A statement table is
      None when reading it raises. */
  datatype Stock = Stock(
    info: Option<Info>,
    lastPrice: Option<real>,
    financials: Option<Sheet>,
    balanceSheet: Option<Sheet>)

  /** The tag of a match in a debt-exempted sector, whatever its D/E. */
  function ExemptTag(sector: string): string
  {
    "Valeur d'Or (Dette adaptée : " + sector + ")"
  }

  /** `info.get('sector', 'N/A')` */
  function SectorOf(info: Info): Val
  {
    Get(info, "sector", VStr("N/A"))
  }

  /** The four strict filters and the sector rules, stated on the
      provider's answers. */
  predicate Qualifies(stock: Stock)
  {
    && stock.info.Some?
    && stock.lastPrice.Some?
    && var info := stock.info.value;
       var sector := SectorOf(info);
       && !InSectors(sector, ExcludedSectors)
       && PeOk(SafeFloat(info, "trailingPE", PeMissing))
       && RoeOk(CalculateRoe(stock.financials, stock.balanceSheet))
       && GpmOk(CalculateGpm(stock.financials))
       && DeOk(CalculateDeRatio(stock.balanceSheet, info), InSectors(sector, ExemptedDebtSectors))
  }

  /** `process_ticker`: a match record exactly when the security qualifies;
      any failed fetch gives None. */
  function ProcessTicker(ticker: string, stock: Stock): (r: Option<MatchRecord>)
    ensures r.Some? <==> Qualifies(stock)
    ensures r.Some? ==> r.value.symbol == ticker && r.value.sector == SectorOf(stock.info.value)
  {
    match stock.info
    case None => None
    case Some(info) =>
      match stock.lastPrice
      case None => None
      case Some(price) =>
        var sector := SectorOf(info);
        if InSectors(sector, ExcludedSectors) then None
        else
          var pe := SafeFloat(info, "trailingPE", PeMissing);
          var roe := CalculateRoe(stock.financials, stock.balanceSheet);
          var gpm := CalculateGpm(stock.financials);
          var de := CalculateDeRatio(stock.balanceSheet, info);
          var exempt := InSectors(sector, ExemptedDebtSectors);
          if PeOk(pe) && RoeOk(roe) && GpmOk(gpm) && DeOk(de, exempt) then
            var tag := if exempt then ExemptTag(sector.str) else PlainTag;
            Some(MatchRecord(
              ticker,
              Get(info, "longName", VStr(ticker)),
              sector,
              Round2(pe),
              Round2(roe * 100.0),
              Round2(gpm * 100.0),
              Round2(de),
              Round2(price),
              Get(info, "currency", VStr("USD")),
              tag))
          else None
  }

  /** Short circuit: an excluded sector gives None, however good the
      ratios. */
  lemma ExcludedSectorRejected(ticker: string, stock: Stock)
    requires stock.info.Some? && InSectors(SectorOf(stock.info.value), ExcludedSectors)
    ensures ProcessTicker(ticker, stock) == None
  {
  }

  /** Exemption: in a debt-exempted sector the D/E ratio, however high,
      does not decide; the other three filters still apply, and a match
      carries the sector in its tag. */
  lemma ExemptSectorIgnoresDebt(ticker: string, stock: Stock)
    requires stock.info.Some? && stock.lastPrice.Some?
    requires InSectors(SectorOf(stock.info.value), ExemptedDebtSectors)
    ensures var info := stock.info.value;
            ProcessTicker(ticker, stock).Some? <==>
              PeOk(SafeFloat(info, "trailingPE", PeMissing)) &&
              RoeOk(CalculateRoe(stock.financials, stock.balanceSheet)) &&
              GpmOk(CalculateGpm(stock.financials))
    ensures ProcessTicker(ticker, stock).Some? ==>
              ProcessTicker(ticker, stock).value.tag == ExemptTag(SectorOf(stock.info.value).str)
  {
    assert !InSectors(SectorOf(stock.info.value), ExcludedSectors);
  }

  /** Outside the exempted sectors a match always has D/E below 1 and the
      plain tag. */
  lemma NonExemptNeedsLowDebt(ticker: string, stock: Stock)
    requires stock.info.Some? && !InSectors(SectorOf(stock.info.value), ExemptedDebtSectors)
    ensures ProcessTicker(ticker, stock).Some? ==>
              CalculateDeRatio(stock.balanceSheet, stock.info.value) < DeCeiling &&
              ProcessTicker(ticker, stock).value.tag == PlainTag
  {
  }

  /** Each bound is strict: a value exactly on it fails. */
  lemma BoundariesRejected(ticker: string, stock: Stock)
    requires stock.info.Some?
    ensures var info := stock.info.value;
            ("trailingPE" in info && info["trailingPE"] == VNum(15.0)) ==> ProcessTicker(ticker, stock) == None
    ensures CalculateRoe(stock.financials, stock.balanceSheet) == 0.15 ==> ProcessTicker(ticker, stock) == None
    ensures CalculateGpm(stock.financials) == 0.20 ==> ProcessTicker(ticker, stock) == None
    ensures (CalculateDeRatio(stock.balanceSheet, stock.info.value) == 1.0 &&
             !InSectors(SectorOf(stock.info.value), ExemptedDebtSectors)) ==> ProcessTicker(ticker, stock) == None
  {
  }

  /** Missing data always fails its filter: no P/E, no net income, no
      revenue, equity in neither source outside the exempted sectors, no
      price. */
  lemma MissingDataRejected(ticker: string, stock: Stock)
    requires stock.info.Some?
    ensures "trailingPE" !in stock.info.value ==> ProcessTicker(ticker, stock) == None
    ensures LatestValue(stock.financials, "Net Income").None? ==> ProcessTicker(ticker, stock) == None
    ensures LatestValue(stock.financials, "Total Revenue").None? ==> ProcessTicker(ticker, stock) == None
    ensures (LatestValue(stock.balanceSheet, "Total Stockholder Equity").None? &&
             "totalStockholderEquity" !in stock.info.value &&
             !InSectors(SectorOf(stock.info.value), ExemptedDebtSectors)) ==> ProcessTicker(ticker, stock) == None
    ensures stock.lastPrice.None? ==> ProcessTicker(ticker, stock) == None
  {
    if LatestValue(stock.balanceSheet, "Total Stockholder Equity").None? &&
       "totalStockholderEquity" !in stock.info.value {
      DeMissingEquityFails(stock.balanceSheet, stock.info.value);
    }
  }

  /** What a match record reports: the P/E rounded into [0, 15], ROE and
      gross margin as percentages of at least 15 and 20, a D/E of at most 1
      outside the exempted sectors, every ratio within half a hundredth of
      the computed one, the rounded price, and the name and currency with
      their defaults. */
  lemma {:induction false} MatchRecordValues(ticker: string, stock: Stock)
    requires ProcessTicker(ticker, stock).Some?
    ensures var r := ProcessTicker(ticker, stock).value;
            var info := stock.info.value;
            var pe := SafeFloat(info, "trailingPE", PeMissing);
            var roe := CalculateRoe(stock.financials, stock.balanceSheet);
            var gpm := CalculateGpm(stock.financials);
            var de := CalculateDeRatio(stock.balanceSheet, info);
            && 0.0 <= r.pe <= 15.0 && pe - 0.005 <= r.pe <= pe + 0.005
            && r.roe >= 15.0 && roe * 100.0 - 0.005 <= r.roe <= roe * 100.0 + 0.005
            && r.gpm >= 20.0 && gpm * 100.0 - 0.005 <= r.gpm <= gpm * 100.0 + 0.005
            && de - 0.005 <= r.deRatio <= de + 0.005
            && (!InSectors(SectorOf(info), ExemptedDebtSectors) ==> r.deRatio <= 1.0)
            && r.price == Round2(stock.lastPrice.value)
            && r.name == Get(info, "longName", VStr(ticker))
            && r.currency == Get(info, "currency", VStr("USD"))
  {
    var info := stock.info.value;
    var pe := SafeFloat(info, "trailingPE", PeMissing);
    var roe := CalculateRoe(stock.financials, stock.balanceSheet);
    var gpm := CalculateGpm(stock.financials);
    var de := CalculateDeRatio(stock.balanceSheet, info);
    if !InSectors(SectorOf(info), ExemptedDebtSectors) {
      Round2Monotone(de, 1.0);
      Round2OfCents(1.0);
    }
    Round2Monotone(0.0, pe);
    Round2Monotone(pe, 15.0);
    Round2Monotone(15.0, roe * 100.0);
    Round2Monotone(20.0, gpm * 100.0);
    Round2OfCents(0.0);
    Round2OfCents(15.0);
    Round2OfCents(20.0);
  }

  /** `all_tickers[:2500]` */
  function TickersToScan(allTickers: seq<string>): (r: seq<string>)
    ensures |r| == if |allTickers| <= ScanCap then |allTickers| else ScanCap
    ensures r == allTickers[..|r|]
    ensures |allTickers| <= ScanCap ==> r == allTickers
  {
    if |allTickers| <= ScanCap then allTickers else allTickers[..ScanCap]
  }

  /** `list(executor.map(process_ticker, tickers_to_scan))`, in input order. */
  function ScanResults(tickers: seq<string>, provider: string -> Stock): (r: seq<Option<MatchRecord>>)
    ensures |r| == |tickers|
    ensures forall i :: 0 <= i < |tickers| ==> r[i] == ProcessTicker(tickers[i], provider(tickers[i]))
  {
    seq(|tickers|, i requires 0 <= i < |tickers| => ProcessTicker(tickers[i], provider(tickers[i])))
  }

  /** `[r for r in results if r is not None]` */
  function Present(results: seq<Option<MatchRecord>>): (r: seq<MatchRecord>)
    ensures |r| <= |results|
    ensures forall x :: x in r <==> Some(x) in results
  {
    if results == [] then []
    else
      var init, last := results[..|results| - 1], results[|results| - 1];
      assert results == init + [last];
      Present(init) + (if last.Some? then [last.value] else [])
  }

  /** Filtering keeps the order of the results. */
  lemma {:induction false} PresentAppend(a: seq<Option<MatchRecord>>, b: seq<Option<MatchRecord>>)
    ensures Present(a + b) == Present(a) + Present(b)
    decreases |b|
  {
    if b == [] {
      assert a + b == a;
    } else {
      var init, last := b[..|b| - 1], b[|b| - 1];
      assert a + b == (a + init) + [last];
      assert (a + b)[..|a + b| - 1] == a + init;
      PresentAppend(a, init);
    }
  }

  /** The report of `run_global_analysis` for the universe `allTickers`. */
  function GlobalReport(allTickers: seq<string>, provider: string -> Stock): Report
  {
    var data := SortByPe(Present(ScanResults(TickersToScan(allTickers), provider)));
    Report(|data|, data)
  }

  /** The report counts its records, at most 2500, and lists them in
      non-decreasing P/E order, as a permutation of the matches with ties in
      scan order. */
  lemma GlobalReportRanked(allTickers: seq<string>, provider: string -> Stock)
    ensures var report := GlobalReport(allTickers, provider);
            var found := Present(ScanResults(TickersToScan(allTickers), provider));
            && report.count == |report.data| <= ScanCap
            && SortedByPe(report.data)
            && multiset(report.data) == multiset(found)
            && forall k :: WithPe(report.data, k) == WithPe(found, k)
  {
    var found := Present(ScanResults(TickersToScan(allTickers), provider));
    SortByPeSortedPermutation(found);
    assert |SortByPe(found)| == |multiset(SortByPe(found))| == |multiset(found)| == |found|;
    forall k | true
      ensures WithPe(SortByPe(found), k) == WithPe(found, k)
    {
      SortByPeStable(found, k);
    }
  }

  /** A record is among the scan results exactly when it is the verdict
      on the ticker it names, which is one of those scanned. */
  lemma ScanResultsMembers(tickers: seq<string>, provider: string -> Stock, x: MatchRecord)
    ensures Some(x) in ScanResults(tickers, provider) <==>
              x.symbol in tickers && ProcessTicker(x.symbol, provider(x.symbol)) == Some(x)
  {
    var results := ScanResults(tickers, provider);
    if Some(x) in results {
      var i :| 0 <= i < |results| && results[i] == Some(x);
      assert x.symbol == tickers[i];
    }
    if x.symbol in tickers && ProcessTicker(x.symbol, provider(x.symbol)) == Some(x) {
      var i :| 0 <= i < |tickers| && tickers[i] == x.symbol;
      assert results[i] == Some(x);
    }
  }

  /** The report holds exactly the matches among the first 2500 tickers. */
  lemma GlobalReportMembers(allTickers: seq<string>, provider: string -> Stock, x: MatchRecord)
    ensures x in GlobalReport(allTickers, provider).data <==>
              x.symbol in TickersToScan(allTickers) && ProcessTicker(x.symbol, provider(x.symbol)) == Some(x)
  {
    var toScan := TickersToScan(allTickers);
    var found := Present(ScanResults(toScan, provider));
    SortByPeSortedPermutation(found);
    var data := SortByPe(found);
    assert x in data <==> x in multiset(data);
    assert x in data <==> x in found;
    ScanResultsMembers(toScan, provider, x);
  }

  /** The scan-and-rank part of `run_global_analysis`: cap, evaluate every
      ticker, drop the None results, sort in place by P/E, count. */
  method ScanAndRank(allTickers: seq<string>, provider: string -> Stock) returns (report: Report)
    ensures report == GlobalReport(allTickers, provider)
    ensures report.count == |report.data| <= ScanCap
    ensures SortedByPe(report.data)
  {
    var toScan := TickersToScan(allTickers);
    var results := seq(|toScan|, i requires 0 <= i < |toScan| => ProcessTicker(toScan[i], provider(toScan[i])));
    var found := Present(results);
    var undervalued := new MatchRecord[|found|](i requires 0 <= i < |found| => found[i]);
    assert undervalued[..] == found;
    SortInPlace(undervalued);
    report := Report(undervalued.Length, undervalued[..]);
    assert results == ScanResults(toScan, provider);
    GlobalReportRanked(allTickers, provider);
  }

  /** `run_global_analysis`: builds the universe from the index pages, then
      scans and ranks it. The universe list is returned beside the report:
      the report is the specified one for that list, so it holds every match
      among its first 2500 tickers, sorted by P/E with ties in scan order.
      Every reported record is the match of a universe ticker it names. */
  method RunGlobalAnalysis(pages: IndexPages, provider: string -> Stock) returns (allTickers: seq<string>, report: Report)
    ensures NoDuplicates(allTickers)
    ensures forall t :: t in allTickers <==> t in Universe(pages)
    ensures report == GlobalReport(allTickers, provider)
    ensures report.count == |report.data| <= ScanCap
    ensures SortedByPe(report.data)
    ensures forall x :: x in report.data ==>
              x.symbol in Universe(pages) && ProcessTicker(x.symbol, provider(x.symbol)) == Some(x)
  {
    allTickers := GetAllGlobalTickers(pages);
    report := ScanAndRank(allTickers, provider);
    forall x | x in report.data
      ensures x.symbol in Universe(pages) && ProcessTicker(x.symbol, provider(x.symbol)) == Some(x)
    {
      GlobalReportMembers(allTickers, provider, x);
      var toScan := TickersToScan(allTickers);
      var i :| 0 <= i < |toScan| && toScan[i] == x.symbol;
      assert allTickers[i] == x.symbol;
    }
  }

  /** Three securities: A, a financial firm with P/E 10, ROE 20%, margin
      25% and D/E 2; B, a technology firm with strong ratios; C, a consumer
      firm with P/E 20. */
  function ScenarioStock(ticker: string): Stock
  {
    if ticker == "A" then
      Stock(Some(map["sector" := VStr("Financial Services"), "trailingPE" := VNum(10.0)]), Some(50.0),
            Some(map["Net Income" := [0.2], "Gross Profit" := [0.25], "Total Revenue" := [1.0]]),
            Some(map["Total Debt" := [2.0], "Total Stockholder Equity" := [1.0]]))
    else if ticker == "B" then
      Stock(Some(map["sector" := VStr("Technology"), "trailingPE" := VNum(8.0)]), Some(120.0),
            Some(map["Net Income" := [0.3], "Gross Profit" := [0.6], "Total Revenue" := [1.0]]),
            Some(map["Total Debt" := [0.1], "Total Stockholder Equity" := [1.0]]))
    else
      Stock(Some(map["sector" := VStr("Consumer Defensive"), "trailingPE" := VNum(20.0)]), Some(30.0),
            Some(map["Net Income" := [0.3], "Gross Profit" := [0.6], "Total Revenue" := [1.0]]),
            Some(map["Total Debt" := [0.1], "Total Stockholder Equity" := [1.0]]))
  }

  lemma ScenarioA()
    ensures ProcessTicker("A", ScenarioStock("A")).Some?
    ensures ProcessTicker("A", ScenarioStock("A")).value.tag == ExemptTag("Financial Services")
  {
    var stock := ScenarioStock("A");
    assert !InSectors(VStr("Financial Services"), ExcludedSectors);
    assert InSectors(VStr("Financial Services"), ExemptedDebtSectors);
    assert SafeFloat(stock.info.value, "trailingPE", PeMissing) == 10.0;
    assert CalculateRoe(stock.financials, stock.balanceSheet) == 0.2;
    assert CalculateGpm(stock.financials) == 0.25;
  }

  lemma ScenarioB()
    ensures ProcessTicker("B", ScenarioStock("B")) == None
  {
    assert InSectors(VStr("Technology"), ExcludedSectors);
  }

  lemma ScenarioC()
    ensures ProcessTicker("C", ScenarioStock("C")) == None
  {
    var stock := ScenarioStock("C");
    assert SafeFloat(stock.info.value, "trailingPE", PeMissing) == 20.0;
  }

  /** Filtering and sorting results of which only the first is present
      leaves that one record. */
  lemma OnlyFirstPresent(x: MatchRecord)
    ensures SortByPe(Present([Some(x), None, None])) == [x]
  {
    PresentAppend([Some(x)], [None, None]);
    PresentAppend([None], [None]);
    assert [Some(x)] == [] + [Some(x)];
    assert Present([Some(x)]) == [x];
    assert [x] == [] + [x];
  }

  /** A universe of three where only the first ticker matches gives a
      report of that one record. */
  lemma OnlyFirstOfThree(tickers: seq<string>, provider: string -> Stock)
    requires |tickers| == 3
    requires ProcessTicker(tickers[0], provider(tickers[0])).Some?
    requires ProcessTicker(tickers[1], provider(tickers[1])) == None
    requires ProcessTicker(tickers[2], provider(tickers[2])) == None
    ensures GlobalReport(tickers, provider) == Report(1, [ProcessTicker(tickers[0], provider(tickers[0])).value])
  {
    var a := ProcessTicker(tickers[0], provider(tickers[0]));
    var results := ScanResults(TickersToScan(tickers), provider);
    assert results == [a, None, None];
    OnlyFirstPresent(a.value);
  }

  /** Only A is reported, with the exemption tag: B is rejected by its
      sector before any ratio, C by its P/E. */
  lemma ThreeTickerScenario()
    ensures var report := GlobalReport(["A", "B", "C"], ScenarioStock);
            report.count == 1 && report.data[0].symbol == "A" &&
            report.data[0].tag == ExemptTag("Financial Services")
  {
    ScenarioA();
    ScenarioB();
    ScenarioC();
    OnlyFirstOfThree(["A", "B", "C"], ScenarioStock);
  }
}
