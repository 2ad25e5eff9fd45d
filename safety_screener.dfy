/** The sequential "safety mode" screener: a fixed list of large companies,
    every metric read from the provider's precomputed `info` fields, matches
    appended in list order. */
module SafetyScreener {
  import opened Fundamentals
  import opened Criteria

  /** The fixed universe (USA, France, Germany, UK, Switzerland and Italy,
      Canada, Japan and Asia). */
  const TickersList: seq<string> := [
    "AAPL", "MSFT", "GOOGL", "AMZN", "NVDA", "TSLA", "META", "BRK-B", "JNJ", "V", "PG", "JPM",
    "TTE.PA", "LVMH.PA", "AIR.PA", "BNP.PA", "SAN.PA", "OR.PA", "RMS.PA", "AI.PA",
    "SAP.DE", "SIE.DE", "ALV.DE", "DTE.DE", "VOW3.DE", "BMW.DE",
    "SHEL.L", "HSBA.L", "ULVR.L", "BP.L", "AZN.L",
    "NESN.SW", "NOVN.SW", "ROG.SW", "ENEL.MI", "ISP.MI",
    "RY.TO", "TD.TO", "ENB.TO", "CNR.TO",
    "7203.T", "6758.T", "8306.T", "0700.HK", "9988.HK"
  ]

  /** Sectors skipped before any metric is read (a shorter list than the
      global screener's). */
  const ExcludedSectors: seq<string> := [
    "Technology", "Biotechnology", "Basic Materials", "Energy",
    "Oil & Gas", "Mining", "Semiconductors", "Aerospace & Defense"
  ]

  /** Sectors exempt from the debt-to-equity ceiling. */
  const ExemptedDebtSectors: seq<string> := ["Financial Services", "Utilities"]

  /** The tag of a match in a debt-exempted sector (without the sector). */
  const ExemptTag: string := "Valeur d'Or (Dette adaptée)"

  /** `info.get('sector', 'N/A')` */
  function SectorOf(info: Info): Val
  {
    Get(info, "sector", VStr("N/A"))
  }

  /** D/E from the info record: a missing debt reads as 0.0, a missing
      equity as 1.0, and a non-positive equity gives 9999.0. */
  function InfoDeRatio(info: Info): (r: real)
    ensures var debt := SafeFloat(info, "totalDebt", 0.0);
            var equity := SafeFloat(info, "totalStockholderEquity", 1.0);
            if equity > 0.0 then r * equity == debt else r == 9999.0
  {
    var debt := SafeFloat(info, "totalDebt", 0.0);
    var equity := SafeFloat(info, "totalStockholderEquity", 1.0);
    if equity > 0.0 then debt / equity else 9999.0
  }

  /** The four filters of `run_analysis` on an info record of a sector
      that is not excluded. */
  predicate Passes(info: Info)
  {
    && !InSectors(SectorOf(info), ExcludedSectors)
    && PeOk(SafeFloat(info, "trailingPE", 9999.0))
    && RoeOk(SafeFloat(info, "returnOnEquity", -1.0))
    && GpmOk(SafeFloat(info, "grossMargins", -1.0))
    && DeOk(InfoDeRatio(info), InSectors(SectorOf(info), ExemptedDebtSectors))
  }

  /** The verdict of one iteration of the loop in `run_analysis`, for the
      provider's answer `fetched` (None when `stock.info` raises): the
      record it appends, or None when it appends nothing. */
  function ScreenTicker(ticker: string, fetched: Option<Info>): (r: Option<MatchRecord>)
    ensures r.Some? <==> fetched.Some? && Passes(fetched.value)
    ensures r.Some? ==> r.value.symbol == ticker && r.value.sector == SectorOf(fetched.value)
  {
    match fetched
    case None => None
    case Some(info) =>
      var sector := SectorOf(info);
      if InSectors(sector, ExcludedSectors) then None
      else
        var pe := SafeFloat(info, "trailingPE", 9999.0);
        var roe := SafeFloat(info, "returnOnEquity", -1.0);
        var gpm := SafeFloat(info, "grossMargins", -1.0);
        var deRatio := InfoDeRatio(info);
        var exempt := InSectors(sector, ExemptedDebtSectors);
        if PeOk(pe) && RoeOk(roe) && GpmOk(gpm) && DeOk(deRatio, exempt) then
          Some(MatchRecord(
            ticker,
            Get(info, "longName", VStr(ticker)),
            sector,
            Round2(pe),
            Round2(roe * 100.0),
            Round2(gpm * 100.0),
            Round2(deRatio),
            Round2(SafeFloat(info, "currentPrice", 0.0)),
            Get(info, "currency", VStr("USD")),
            if exempt then ExemptTag else PlainTag))
        else None
  }

  /** The records a per-ticker verdict keeps from `tickers`, in their
      order. */
  function Collect(tickers: seq<string>, verdict: string -> Option<MatchRecord>): (r: seq<MatchRecord>)
    ensures |r| <= |tickers|
  {
    if tickers == [] then []
    else
      var init, last := tickers[..|tickers| - 1], tickers[|tickers| - 1];
      Collect(init, verdict) + (match verdict(last) case Some(r) => [r] case None => [])
  }

  /** A verdict that only ever answers with a record for the ticker asked. */
  ghost predicate NamesItsTicker(verdict: string -> Option<MatchRecord>)
  {
    forall t :: verdict(t).Some? ==> verdict(t).value.symbol == t
  }

  /** The screen of one ticker, with the provider's answer for it. */
  function Verdict(provider: string -> Option<Info>): string -> Option<MatchRecord>
  {
    t => ScreenTicker(t, provider(t))
  }

  /** The records appended for `tickers`, in their order. */
  function Matches(tickers: seq<string>, provider: string -> Option<Info>): (r: seq<MatchRecord>)
    ensures |r| <= |tickers|
  {
    Collect(tickers, Verdict(provider))
  }

  /** One pass of the loop body of `run_analysis`, with its early exits
      (the two `continue`s) as early returns: the record to append, if any. */
  method ScreenOne(ticker: string, fetched: Option<Info>) returns (found: Option<MatchRecord>)
    ensures found == ScreenTicker(ticker, fetched)
  {
    found := None;
    if fetched.None? {
      return;
    }
    var info := fetched.value;

    var sector := Get(info, "sector", VStr("N/A"));
    if InSectors(sector, ExcludedSectors) {
      return;
    }

    var pe := SafeFloat(info, "trailingPE", 9999.0);
    var roe := SafeFloat(info, "returnOnEquity", -1.0);
    var gpm := SafeFloat(info, "grossMargins", -1.0);
    var debt := SafeFloat(info, "totalDebt", 0.0);
    var equity := SafeFloat(info, "totalStockholderEquity", 1.0);
    var deRatio := if equity > 0.0 then debt / equity else 9999.0;

    var isPe := 0.0 < pe < 15.0;
    var isRoe := roe > 0.15;
    var isGpm := gpm > 0.20;
    var isDe := deRatio < 1.0 || InSectors(sector, ExemptedDebtSectors);

    if isPe && isRoe && isGpm && isDe {
      var name := Get(info, "longName", VStr(ticker));
      var currency := Get(info, "currency", VStr("USD"));
      var price := SafeFloat(info, "currentPrice", 0.0);
      var tag := PlainTag;
      if InSectors(sector, ExemptedDebtSectors) {
        tag := ExemptTag;
      }
      found := Some(MatchRecord(
        ticker, name, sector, Round2(pe), Round2(roe * 100.0), Round2(gpm * 100.0),
        Round2(deRatio), Round2(price), currency, tag));
    }
  }

  /** The loop of `run_analysis` over a list of tickers, appending each
      match to `undervalued_stocks` in list order. */
  method ScreenAll(tickers: seq<string>, provider: string -> Option<Info>) returns (undervaluedStocks: seq<MatchRecord>)
    ensures undervaluedStocks == Matches(tickers, provider)
  {
    undervaluedStocks := [];
    for i := 0 to |tickers|
      invariant undervaluedStocks == Matches(tickers[..i], provider)
    {
      var ticker := tickers[i];
      assert tickers[..i + 1][..i] == tickers[..i];
      var found := ScreenOne(ticker, provider(ticker));
      if found.Some? {
        undervaluedStocks := undervaluedStocks + [found.value];
      }
    }
    assert tickers[..|tickers|] == tickers;
  }

  /** `run_analysis`: the screen of the fixed list, with its match count. */
  method RunAnalysis(provider: string -> Option<Info>) returns (report: Report)
    ensures report.data == Matches(TickersList, provider)
    ensures report.count == |report.data| <= |TickersList|
  {
    var undervaluedStocks := ScreenAll(TickersList, provider);
    report := Report(|undervaluedStocks|, undervaluedStocks);
    MatchesAtMostOnePerTicker(TickersList, provider);
  }

  lemma {:induction false} CollectAppend(a: seq<string>, b: seq<string>, verdict: string -> Option<MatchRecord>)
    ensures Collect(a + b, verdict) == Collect(a, verdict) + Collect(b, verdict)
    decreases |b|
  {
    if b == [] {
      assert a + b == a;
    } else {
      var init, last := b[..|b| - 1], b[|b| - 1];
      assert (a + b)[..|a + b| - 1] == a + init;
      CollectAppend(a, init, verdict);
    }
  }

  lemma {:induction false} CollectMembers(tickers: seq<string>, verdict: string -> Option<MatchRecord>, r: MatchRecord)
    requires NamesItsTicker(verdict)
    ensures r in Collect(tickers, verdict) <==> r.symbol in tickers && verdict(r.symbol) == Some(r)
  {
    if tickers != [] {
      var init, last := tickers[..|tickers| - 1], tickers[|tickers| - 1];
      assert tickers == init + [last];
      CollectMembers(init, verdict, r);
    }
  }

  lemma {:induction false} CollectDistinct(tickers: seq<string>, verdict: string -> Option<MatchRecord>)
    requires NamesItsTicker(verdict)
    requires forall i, j :: 0 <= i < j < |tickers| ==> tickers[i] != tickers[j]
    ensures var m := Collect(tickers, verdict);
            forall i, j :: 0 <= i < j < |m| ==> m[i].symbol != m[j].symbol
  {
    if tickers != [] {
      var init, last := tickers[..|tickers| - 1], tickers[|tickers| - 1];
      CollectDistinct(init, verdict);
      var m0 := Collect(init, verdict);
      var m := Collect(tickers, verdict);
      var tail := if verdict(last).Some? then [verdict(last).value] else [];
      assert m == m0 + tail;
      forall k | 0 <= k < |m0|
        ensures m0[k].symbol != last
      {
        CollectMembers(init, verdict, m0[k]);
      }
      forall i, j | 0 <= i < j < |m|
        ensures m[i].symbol != m[j].symbol
      {
        if j >= |m0| {
          assert m[i] == m0[i] && m[j] == verdict(last).value;
        } else {
          assert m[i] == m0[i] && m[j] == m0[j];
        }
      }
    }
  }

  /** The symbols of a list of records, in order. */
  function Symbols(m: seq<MatchRecord>): (r: seq<string>)
    ensures |r| == |m| && forall i :: 0 <= i < |m| ==> r[i] == m[i].symbol
  {
    seq(|m|, i requires 0 <= i < |m| => m[i].symbol)
  }

  lemma {:induction false} CollectSymbols(tickers: seq<string>, verdict: string -> Option<MatchRecord>)
    requires NamesItsTicker(verdict)
    ensures multiset(Symbols(Collect(tickers, verdict))) <= multiset(tickers)
    ensures |Collect(tickers, verdict)| <= |tickers|
  {
    if tickers != [] {
      var init, last := tickers[..|tickers| - 1], tickers[|tickers| - 1];
      CollectSymbols(init, verdict);
      var m0 := Collect(init, verdict);
      var tail := if verdict(last).Some? then [verdict(last).value] else [];
      assert Collect(tickers, verdict) == m0 + tail;
      assert Symbols(m0 + tail) == Symbols(m0) + Symbols(tail);
      assert multiset(Symbols(tail)) <= multiset{last};
      assert tickers == init + [last];
      assert multiset(tickers) == multiset(init) + multiset{last};
    }
  }

  /** The per-ticker verdict of the safety screen names its ticker. */
  lemma ScreenNamesItsTicker(provider: string -> Option<Info>)
    ensures NamesItsTicker(Verdict(provider))
  {
    var verdict := Verdict(provider);
    forall t | verdict(t).Some?
      ensures verdict(t).value.symbol == t
    {
      assert verdict(t) == ScreenTicker(t, provider(t));
    }
  }

  /** Input order: the matches of two lists in a row are the matches of the
      first followed by those of the second. */
  lemma MatchesAppend(a: seq<string>, b: seq<string>, provider: string -> Option<Info>)
    ensures Matches(a + b, provider) == Matches(a, provider) + Matches(b, provider)
  {
    CollectAppend(a, b, Verdict(provider));
  }

  /** A record is in the output exactly when it is the verdict on one of
      the tickers, the one it names. */
  lemma MatchesMembers(tickers: seq<string>, provider: string -> Option<Info>, r: MatchRecord)
    ensures r in Matches(tickers, provider) <==>
              r.symbol in tickers && ScreenTicker(r.symbol, provider(r.symbol)) == Some(r)
  {
    ScreenNamesItsTicker(provider);
    CollectMembers(tickers, Verdict(provider), r);
  }

  /** The output has at most one record per occurrence of a ticker in the
      input. */
  lemma MatchesAtMostOnePerTicker(tickers: seq<string>, provider: string -> Option<Info>)
    ensures multiset(Symbols(Matches(tickers, provider))) <= multiset(tickers)
    ensures |Matches(tickers, provider)| <= |tickers|
  {
    ScreenNamesItsTicker(provider);
    CollectSymbols(tickers, Verdict(provider));
  }

  /** For distinct tickers, no two records of the output share a symbol. */
  lemma MatchesDistinctSymbols(tickers: seq<string>, provider: string -> Option<Info>)
    requires forall i, j :: 0 <= i < j < |tickers| ==> tickers[i] != tickers[j]
    ensures var m := Matches(tickers, provider);
            forall i, j :: 0 <= i < j < |m| ==> m[i].symbol != m[j].symbol
  {
    ScreenNamesItsTicker(provider);
    CollectDistinct(tickers, Verdict(provider));
    var m := Matches(tickers, provider);
    assert m == Collect(tickers, Verdict(provider));
    forall i, j | 0 <= i < j < |m|
      ensures m[i].symbol != m[j].symbol
    {
    }
  }

  /** Missing values fail their filters: no P/E (sentinel 9999.0), no ROE
      or no gross margin (sentinel -1.0); an unreadable info record or an
      excluded sector yields nothing. */
  lemma MissingDataRejected(ticker: string, fetched: Option<Info>)
    ensures fetched.None? ==> ScreenTicker(ticker, fetched) == None
    ensures fetched.Some? && InSectors(SectorOf(fetched.value), ExcludedSectors) ==> ScreenTicker(ticker, fetched) == None
    ensures fetched.Some? && "trailingPE" !in fetched.value ==> ScreenTicker(ticker, fetched) == None
    ensures fetched.Some? && "returnOnEquity" !in fetched.value ==> ScreenTicker(ticker, fetched) == None
    ensures fetched.Some? && "grossMargins" !in fetched.value ==> ScreenTicker(ticker, fetched) == None
  {
  }

  /** A missing equity reads as 1.0, so the D/E ratio is then the debt
      itself (0.0 when the debt is missing too). */
  lemma MissingEquityDeIsDebt(info: Info)
    requires "totalStockholderEquity" !in info
    ensures InfoDeRatio(info) == SafeFloat(info, "totalDebt", 0.0)
    ensures "totalDebt" !in info ==> InfoDeRatio(info) == 0.0
  {
  }

  /** The tag names no sector: the exempt tag exactly for the exempted
      sectors, the plain tag otherwise; a missing price is reported as 0.0. */
  lemma MatchTag(ticker: string, fetched: Option<Info>)
    requires ScreenTicker(ticker, fetched).Some?
    ensures var r := ScreenTicker(ticker, fetched).value;
            (r.tag == ExemptTag <==> InSectors(SectorOf(fetched.value), ExemptedDebtSectors)) &&
            (r.tag == PlainTag <==> !InSectors(SectorOf(fetched.value), ExemptedDebtSectors)) &&
            ("currentPrice" !in fetched.value ==> r.price == 0.0)
  {
    Round2OfCents(0.0);
  }

  /** What an appended record reports: the P/E rounded into [0, 15], ROE
      and gross margin as percentages of at least 15 and 20, a D/E of at
      most 1 outside the exempted sectors, every ratio within half a
      hundredth of the computed one, the sector, the rounded price (0.0 when
      missing), and the name and currency with their defaults. */
  lemma {:induction false} MatchRecordValues(ticker: string, fetched: Option<Info>)
    requires ScreenTicker(ticker, fetched).Some?
    ensures var r := ScreenTicker(ticker, fetched).value;
            var info := fetched.value;
            var pe := SafeFloat(info, "trailingPE", 9999.0);
            var roe := SafeFloat(info, "returnOnEquity", -1.0);
            var gpm := SafeFloat(info, "grossMargins", -1.0);
            var de := InfoDeRatio(info);
            && 0.0 <= r.pe <= 15.0 && pe - 0.005 <= r.pe <= pe + 0.005
            && r.roe >= 15.0 && roe * 100.0 - 0.005 <= r.roe <= roe * 100.0 + 0.005
            && r.gpm >= 20.0 && gpm * 100.0 - 0.005 <= r.gpm <= gpm * 100.0 + 0.005
            && de - 0.005 <= r.deRatio <= de + 0.005
            && (!InSectors(SectorOf(info), ExemptedDebtSectors) ==> r.deRatio <= 1.0)
            && r.sector == SectorOf(info)
            && r.price == Round2(SafeFloat(info, "currentPrice", 0.0))
            && r.name == Get(info, "longName", VStr(ticker))
            && r.currency == Get(info, "currency", VStr("USD"))
  {
    var info := fetched.value;
    var pe := SafeFloat(info, "trailingPE", 9999.0);
    var roe := SafeFloat(info, "returnOnEquity", -1.0);
    var gpm := SafeFloat(info, "grossMargins", -1.0);
    var de := InfoDeRatio(info);
    if !InSectors(SectorOf(info), ExemptedDebtSectors) {
      Round2Monotone(de, 1.0);
      Round2OfCents(1.0);
    }
    Round2Monotone(0.0, pe);
    Round2Monotone(pe, 15.0);
    Round2Monotone(15.0, roe * 100.0);
    Round2Monotone(20.0, gpm * 100.0);
    Round2OfCents(0.0);
    Round2OfCents(15.0);
    Round2OfCents(20.0);
  }

  /** Each bound is strict: a value exactly on it fails. */
  lemma BoundariesRejected(ticker: string, info: Info)
    ensures "trailingPE" in info && info["trailingPE"] == VNum(15.0) ==> ScreenTicker(ticker, Some(info)) == None
    ensures "returnOnEquity" in info && info["returnOnEquity"] == VNum(0.15) ==> ScreenTicker(ticker, Some(info)) == None
    ensures "grossMargins" in info && info["grossMargins"] == VNum(0.20) ==> ScreenTicker(ticker, Some(info)) == None
    ensures InfoDeRatio(info) == 1.0 && !InSectors(SectorOf(info), ExemptedDebtSectors) ==> ScreenTicker(ticker, Some(info)) == None
  {
  }
}
