/**
 * One row of the plot table, the status test that hides sold-out plots, and the
 * square-feet conversions used for the helper columns and the plot detail view.
 */
module Plots {
  import opened Wrappers

  /**
   * A row of the loaded table. Columns: `NO`, `NET PLOT AREA IN SQ.FEET`,
   * `BUILT UP AREA IN SQ.FEET`, `TOTAL PLOT AREA IN SQ. FEET`, `RATE (1500)*(900)`,
   * `9 % Pricing Discount Rates ( 1350 * 810 )` and `Status`. A missing cell is `None`.
   */
  datatype Plot = Plot(
    no: Option<int>,
    netSqft: Option<real>,
    builtSqft: Option<real>,
    totalSqft: Option<real>,
    rate: Option<real>,
    discountedRate: Option<real>,
    status: string)

  /** Square feet in one square metre. */
  const SqFeetPerSqMetre: real := 10.7639
  /** Square feet in one square yard. */
  const SqFeetPerSqYard: real := 9.0

  /** ASCII `str.lower()`: every upper-case letter becomes its lower-case letter, nothing else changes. */
  function Lower(s: string): (r: string)
    ensures |r| == |s|
    ensures forall i :: 0 <= i < |s| ==>
              r[i] == s[i] || ('A' <= s[i] <= 'Z' && r[i] as int == s[i] as int + 32)
    ensures forall i :: 0 <= i < |r| ==> !('A' <= r[i] <= 'Z')
  {
    seq(|s|, i requires 0 <= i < |s| => if 'A' <= s[i] <= 'Z' then (s[i] as int + 32) as char else s[i])
  }

  /** `Status.str.lower() == "sold out"`. */
  predicate IsSoldOut(status: string) {
    Lower(status) == "sold out"
  }

  /** Lower-casing twice is lower-casing once, so the status test is blind to letter case. */
  lemma SoldOutIgnoresCase(status: string)
    ensures Lower(Lower(status)) == Lower(status)
    ensures IsSoldOut(Lower(status)) == IsSoldOut(status)
  {
  }

  /** Spellings of the sold-out status that the page hides, and some it keeps. */
  lemma SoldOutSpellings()
    ensures IsSoldOut("sold out") && IsSoldOut("Sold Out") && IsSoldOut("SOLD OUT")
    ensures !IsSoldOut("Available") && !IsSoldOut("Sold") && !IsSoldOut("sold out ") && !IsSoldOut("Reserved")
  {
    assert Lower("Sold Out") == "sold out";
    assert Lower("SOLD OUT") == "sold out";
    assert Lower("sold out") == "sold out";
    assert Lower("Reserved")[0] == 'r';
  }

  /** `convert_area`: (square metres, square yards, square feet) of an area given in square feet. */
  function ConvertArea(sqft: real): (r: (real, real, real))
    ensures r.2 == sqft
    ensures r.0 * SqFeetPerSqMetre == sqft
    ensures r.1 * SqFeetPerSqYard == sqft
    ensures sqft >= 0.0 ==> 0.0 <= r.0 <= r.1 <= sqft
  {
    (sqft / SqFeetPerSqMetre, sqft / SqFeetPerSqYard, sqft)
  }

  /** The `TOTAL_SQMT` helper column: total area in square metres, missing where the total is. */
  function TotalSqmt(p: Plot): (m: Option<real>)
    ensures m.Some? <==> p.totalSqft.Some?
    ensures m.Some? ==> m.value * SqFeetPerSqMetre == p.totalSqft.value
  {
    match p.totalSqft
    case None => None
    case Some(ft) => Some(ConvertArea(ft).0)
  }

  /** The `TOTAL_SQYD` helper column: total area in square yards, missing where the total is. */
  function TotalSqyd(p: Plot): (y: Option<real>)
    ensures y.Some? <==> p.totalSqft.Some?
    ensures y.Some? ==> y.value * SqFeetPerSqYard == p.totalSqft.value
  {
    match p.totalSqft
    case None => None
    case Some(ft) => Some(ConvertArea(ft).1)
  }

  /** One area in all three units, or missing: `a` converted, with both round trips exact. */
  predicate ConvertsTo(a: Option<real>, v: Option<(real, real, real)>) {
    match a
    case None => v.None?
    case Some(ft) =>
      v.Some? && v.value.2 == ft && v.value.0 * SqFeetPerSqMetre == ft && v.value.1 * SqFeetPerSqYard == ft
  }

  /** What the detail view shows for one plot: each area in three units, and the two prices. */
  datatype PlotDetail = PlotDetail(
    no: Option<int>,
    net: Option<(real, real, real)>,
    built: Option<(real, real, real)>,
    total: Option<(real, real, real)>,
    rate: Option<real>,
    discountedRate: Option<real>)

  function ConvertCell(a: Option<real>): Option<(real, real, real)> {
    match a
    case None => None
    case Some(ft) => Some(ConvertArea(ft))
  }

  /** The values one plot's detail block is built from; a missing cell stays missing on its own. */
  function Detail(p: Plot): (d: PlotDetail)
    ensures d.no == p.no
    ensures ConvertsTo(p.netSqft, d.net) && ConvertsTo(p.builtSqft, d.built) && ConvertsTo(p.totalSqft, d.total)
    ensures d.rate == p.rate && d.discountedRate == p.discountedRate
  {
    PlotDetail(p.no, ConvertCell(p.netSqft), ConvertCell(p.builtSqft), ConvertCell(p.totalSqft),
               p.rate, p.discountedRate)
  }
}
