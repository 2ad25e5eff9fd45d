/** The four Buffett filters shared by both screener variants, the match
    record they produce, the report, and the two-decimal rounding applied to
    every reported ratio. */
module Criteria {
  import opened Fundamentals

  const PeCeiling: real := 15.0
  const RoeFloor: real := 0.15
  const GpmFloor: real := 0.20
  const DeCeiling: real := 1.0

  /** F1, price: 0 < P/E < 15. */
  predicate PeOk(pe: real) { 0.0 < pe < PeCeiling }

  /** F2, quality: ROE > 15%. */
  predicate RoeOk(roe: real) { roe > RoeFloor }

  /** F3, moat: gross margin > 20%. */
  predicate GpmOk(gpm: real) { gpm > GpmFloor }

  /** F4, safety: D/E < 1, waived for a debt-exempted sector. */
  predicate DeOk(de: real, exempt: bool) { de < DeCeiling || exempt }

  /** `sector in SECTORS` for a Python list of strings: only a string can be
      equal to one of them. */
  predicate InSectors(sector: Val, sectors: seq<string>)
  {
    sector.VStr? && sector.str in sectors
  }

  const PlainTag: string := "Valeur d'Or"

  /** One entry of the report's `data` list (the JSON object's fields). */
  datatype MatchRecord = MatchRecord(
    symbol: string,
    name: Val,
    sector: Val,
    pe: real,
    roe: real,
    gpm: real,
    deRatio: real,
    price: real,
    currency: Val,
    tag: string)

  /** The written report, without its `last_updated` time stamp. */
  datatype Report = Report(count: nat, data: seq<MatchRecord>)

  /** Whether r is a whole number of hundredths. */
  predicate IsCents(r: real)
  {
    (r * 100.0).Floor as real == r * 100.0
  }

  /** `round(x, 2)` on the exact value: the nearest hundredth, ties to the
      even hundredth. */
  function Round2(x: real): (r: real)
    ensures IsCents(r)
    ensures x - 0.005 <= r <= x + 0.005
  {
    var y := x * 100.0;
    var f := y.Floor;
    var d := y - f as real;
    var n := if d < 0.5 then f else if d > 0.5 then f + 1 else if f % 2 == 0 then f else f + 1;
    assert (n as real / 100.0) * 100.0 == n as real;
    n as real / 100.0
  }

  /** Rounding keeps order, so a sort on the rounded P/E never puts a record
      before one whose raw P/E rounds lower; raw values that round to the
      same hundredth keep their scan order. */
  lemma Round2Monotone(x: real, y: real)
    requires x <= y
    ensures Round2(x) <= Round2(y)
  {
    var fx, fy := (x * 100.0).Floor, (y * 100.0).Floor;
    assert fx <= fy;
  }

  /** A value already in hundredths is left as it is. */
  lemma Round2OfCents(r: real)
    requires IsCents(r)
    ensures Round2(r) == r
  {
    var f := (r * 100.0).Floor;
    assert r * 100.0 - f as real == 0.0;
  }

  /** Ties go to the even hundredth, as Python's round does on values
      whose binary form is exact. */
  lemma Round2Ties()
    ensures Round2(0.125) == 0.12
    ensures Round2(0.375) == 0.38
    ensures Round2(14.875) == 14.88
  {
    assert (12.5).Floor == 12;
    assert (37.5).Floor == 37;
    assert (1487.5).Floor == 1487;
  }
}
