/**
 * The filter engine of the plot page: up to four inclusive range constraints
 * (budget on the rate column, total area in square metres, square yards and
 * square feet), each switched on by its own checkbox and kept only when its
 * maximum exceeds its minimum, ANDed onto a mask that already hides every plot
 * whose status reads "sold out" in any letter case.
 */
module Filters {
  import opened Wrappers
  import opened Plots
  import opened Table

  /** The four filter checkboxes, in the order the page appends their masks. */
  datatype Unit = Budget | Meter | Yard | Feet

  /** Position of a unit's block on the page. */
  function Rank(u: Unit): nat {
    match u
    case Budget => 0
    case Meter => 1
    case Yard => 2
    case Feet => 3
  }

  /** The filter inputs: `None` when a checkbox is off, `Some((min, max))` when it is on. */
  datatype Constraints = Constraints(
    budget: Option<(real, real)>,
    meter: Option<(real, real)>,
    yard: Option<(real, real)>,
    feet: Option<(real, real)>)

  /** Every checkbox off. */
  const NoConstraints: Constraints := Constraints(None, None, None, None)

  function Bound(c: Constraints, u: Unit): Option<(real, real)> {
    match u
    case Budget => c.budget
    case Meter => c.meter
    case Yard => c.yard
    case Feet => c.feet
  }

  /** A unit whose checkbox is on and whose maximum exceeds its minimum: its mask is appended. */
  predicate Accepted(c: Constraints, u: Unit) {
    Bound(c, u).Some? && Bound(c, u).value.1 > Bound(c, u).value.0
  }

  /** A unit whose checkbox is on but whose maximum does not exceed its minimum: a warning instead. */
  predicate Rejected(c: Constraints, u: Unit) {
    Bound(c, u).Some? && !(Bound(c, u).value.1 > Bound(c, u).value.0)
  }

  /** `c` with the checkbox of `u` turned off and every other input as it was. */
  function Without(c: Constraints, u: Unit): (d: Constraints)
    ensures Bound(d, u).None?
    ensures forall v :: v != u ==> Bound(d, v) == Bound(c, v)
  {
    match u
    case Budget => c.(budget := None)
    case Meter => c.(meter := None)
    case Yard => c.(yard := None)
    case Feet => c.(feet := None)
  }

  /** Two sets of inputs that never switch on the same checkbox. */
  predicate Disjoint(a: Constraints, b: Constraints) {
    forall u :: !(Bound(a, u).Some? && Bound(b, u).Some?)
  }

  /** The inputs of `a` and of `b` together: each checkbox takes its range from whichever has it on. */
  function Merge(a: Constraints, b: Constraints): (m: Constraints)
    ensures forall u :: Bound(m, u) == if Bound(a, u).Some? then Bound(a, u) else Bound(b, u)
  {
    Constraints(
      if a.budget.Some? then a.budget else b.budget,
      if a.meter.Some? then a.meter else b.meter,
      if a.yard.Some? then a.yard else b.yard,
      if a.feet.Some? then a.feet else b.feet)
  }

  /** An appended filter: the mask `(column >= lo) & (column <= hi)` of its unit's column. */
  datatype Range = Range(unit: Unit, lo: real, hi: real)

  /**
   * The column a unit's range tests: the budget reads `RATE (1500)*(900)`, never the
   * discounted rate; the area units read the total plot area, converted to that unit.
   */
  function Column(p: Plot, u: Unit): (v: Option<real>)
    ensures u == Budget ==> v == p.rate
    ensures u == Feet ==> v == p.totalSqft
    ensures u == Meter ==> (v.Some? <==> p.totalSqft.Some?) &&
                           (v.Some? ==> v.value * SqFeetPerSqMetre == p.totalSqft.value)
    ensures u == Yard ==> (v.Some? <==> p.totalSqft.Some?) &&
                          (v.Some? ==> v.value * SqFeetPerSqYard == p.totalSqft.value)
  {
    match u
    case Budget => p.rate
    case Meter => TotalSqmt(p)
    case Yard => TotalSqyd(p)
    case Feet => p.totalSqft
  }

  /** One row of a range mask: inclusive at both ends; a missing cell fails both comparisons. */
  predicate Satisfies(p: Plot, r: Range) {
    match Column(p, r.unit)
    case None => false
    case Some(v) => r.lo <= v && v <= r.hi
  }

  /** The boolean column `(column >= lo) & (column <= hi)` over the whole table. */
  function RangeMask(df: seq<Plot>, r: Range): seq<bool> {
    seq(|df|, i requires 0 <= i < |df| => Satisfies(df[i], r))
  }

  /** The starting mask `Status.str.lower() != "sold out"`. */
  function StatusMask(df: seq<Plot>): seq<bool> {
    seq(|df|, i requires 0 <= i < |df| => !IsSoldOut(df[i].status))
  }

  predicate AllSatisfied(p: Plot, filters: seq<Range>) {
    forall r :: r in filters ==> Satisfies(p, r)
  }

  /** Collected ranges appear in page order, so no unit is appended twice. */
  predicate InPageOrder(filters: seq<Range>) {
    forall i, j :: 0 <= i < j < |filters| ==> Rank(filters[i].unit) < Rank(filters[j].unit)
  }

  /**
   * One unit's block: when its checkbox is on, append its range if the maximum exceeds
   * the minimum and raise a warning for it otherwise; when it is off, do nothing.
   */
  method CheckUnit(c: Constraints, u: Unit, filters: seq<Range>, warnings: set<Unit>)
    returns (filters': seq<Range>, warnings': set<Unit>)
    ensures forall r :: r in filters' <==>
              r in filters || (r.unit == u && Accepted(c, u) && Bound(c, u) == Some((r.lo, r.hi)))
    ensures InPageOrder(filters) && (forall r :: r in filters ==> Rank(r.unit) < Rank(u)) ==>
              InPageOrder(filters')
    ensures forall v :: v in warnings' <==> v in warnings || (v == u && Rejected(c, u))
  {
    filters', warnings' := filters, warnings;
    if Bound(c, u).Some? {
      var (lo, hi) := Bound(c, u).value;
      if hi > lo {
        filters' := filters + [Range(u, lo, hi)];
      } else {
        warnings' := warnings + {u};
      }
    }
  }

  /**
   * Collecting the limits: the four unit blocks in page order, starting from no filters
   * and no warnings.
   */
  method CollectFilters(c: Constraints) returns (filters: seq<Range>, warnings: set<Unit>)
    ensures forall r :: r in filters <==> Accepted(c, r.unit) && Bound(c, r.unit) == Some((r.lo, r.hi))
    ensures InPageOrder(filters)
    ensures forall u :: u in warnings <==> Rejected(c, u)
  {
    filters, warnings := CheckUnit(c, Budget, [], {});
    filters, warnings := CheckUnit(c, Meter, filters, warnings);
    filters, warnings := CheckUnit(c, Yard, filters, warnings);
    filters, warnings := CheckUnit(c, Feet, filters, warnings);
  }

  /** The mask fold: start from the status mask and AND every collected range mask onto it. */
  method ApplyFilters(df: seq<Plot>, filters: seq<Range>) returns (mask: seq<bool>)
    ensures |mask| == |df|
    ensures forall i :: 0 <= i < |df| ==>
              (mask[i] <==> !IsSoldOut(df[i].status) && AllSatisfied(df[i], filters))
  {
    mask := StatusMask(df);
    for k := 0 to |filters|
      invariant |mask| == |df|
      invariant forall i :: 0 <= i < |df| ==>
                  (mask[i] <==> !IsSoldOut(df[i].status) && AllSatisfied(df[i], filters[..k]))
    {
      var f := RangeMask(df, filters[k]);
      mask := seq(|df|, i requires 0 <= i < |df| => mask[i] && f[i]);  // mask &= f
      assert filters[..k + 1] == filters[..k] + [filters[k]];
    }
    assert filters[..|filters|] == filters;
  }

  /** What a unit's input demands of a plot: nothing unless accepted, else its inclusive range. */
  predicate UnitAdmits(c: Constraints, u: Unit, p: Plot) {
    !Accepted(c, u) || Satisfies(p, Range(u, Bound(c, u).value.0, Bound(c, u).value.1))
  }

  /** Reference predicate for one row: not sold out, and within every accepted range. */
  predicate Admitted(c: Constraints, p: Plot) {
    !IsSoldOut(p.status) &&
    UnitAdmits(c, Budget, p) && UnitAdmits(c, Meter, p) && UnitAdmits(c, Yard, p) && UnitAdmits(c, Feet, p)
  }

  /** Reference result: the admitted rows in table order. */
  function Matching(df: seq<Plot>, c: Constraints): (r: seq<Plot>)
    ensures |r| <= |df|
    decreases |df|
  {
    if df == [] then []
    else (if Admitted(c, df[0]) then [df[0]] else []) + Matching(df[1..], c)
  }

  /** A plot passes the collected ranges exactly when every unit's input admits it. */
  lemma FiltersAdmit(c: Constraints, filters: seq<Range>, p: Plot)
    requires forall r :: r in filters <==> Accepted(c, r.unit) && Bound(c, r.unit) == Some((r.lo, r.hi))
    ensures AllSatisfied(p, filters) <==>
              UnitAdmits(c, Budget, p) && UnitAdmits(c, Meter, p) && UnitAdmits(c, Yard, p) && UnitAdmits(c, Feet, p)
  {
  }

  /** `df[mask]` with a mask that is `Admitted` row by row is the reference result. */
  lemma {:induction false} SelectIsMatching(df: seq<Plot>, mask: seq<bool>, c: Constraints)
    requires |mask| == |df|
    requires forall i :: 0 <= i < |df| ==> mask[i] == Admitted(c, df[i])
    ensures Select(df, mask) == Matching(df, c)
    decreases |df|
  {
    if df != [] {
      SelectIsMatching(df[1..], mask[1..], c);
    }
  }

  /**
   * The whole filter section: collect the ranges, fold their masks onto the status mask
   * and select `df[mask]`. The result is the reference result, and the warnings name
   * exactly the checked units whose maximum does not exceed their minimum.
   */
  method FilterPlots(df: seq<Plot>, c: Constraints) returns (filtered: seq<Plot>, warnings: set<Unit>)
    ensures filtered == Matching(df, c)
    ensures forall u :: u in warnings <==> Rejected(c, u)
  {
    var filters;
    filters, warnings := CollectFilters(c);
    var mask := ApplyFilters(df, filters);
    forall i | 0 <= i < |df| ensures mask[i] == Admitted(c, df[i]) {
      FiltersAdmit(c, filters, df[i]);
    }
    filtered := Select(df, mask);
    SelectIsMatching(df, mask, c);
  }

  /** Filtering a concatenation filters each part. */
  lemma {:induction false} MatchingAppend(x: seq<Plot>, y: seq<Plot>, c: Constraints)
    ensures Matching(x + y, c) == Matching(x, c) + Matching(y, c)
    decreases |x|
  {
    if x == [] {
      assert x + y == y;
    } else {
      assert (x + y)[1..] == x[1..] + y;
      MatchingAppend(x[1..], y, c);
    }
  }

  /** A plot is in the result exactly when it is a row of the table that is admitted. */
  lemma {:induction false} MatchingMember(df: seq<Plot>, c: Constraints, p: Plot)
    ensures p in Matching(df, c) <==> p in df && Admitted(c, p)
    decreases |df|
  {
    if df != [] {
      MatchingMember(df[1..], c, p);
      assert df == [df[0]] + df[1..];
    }
  }

  /** No row whose lower-cased status is "sold out" is ever listed, whatever the inputs. */
  lemma {:induction false} SoldOutNeverListed(df: seq<Plot>, c: Constraints)
    ensures forall p :: p in Matching(df, c) ==> !IsSoldOut(p.status)
  {
    forall p | p in Matching(df, c) ensures !IsSoldOut(p.status) {
      MatchingMember(df, c, p);
    }
  }

  /** Inputs that admit the same rows give the same result. */
  lemma {:induction false} MatchingSameAdmission(df: seq<Plot>, c: Constraints, d: Constraints)
    requires forall p :: Admitted(c, p) == Admitted(d, p)
    ensures Matching(df, c) == Matching(df, d)
    decreases |df|
  {
    if df != [] {
      MatchingSameAdmission(df[1..], c, d);
    }
  }

  /**
   * A checked unit whose maximum does not exceed its minimum is ignored: the result is
   * the one with that checkbox off, so every other unit's range still applies.
   */
  lemma {:induction false} RejectedRangeIsIgnored(df: seq<Plot>, c: Constraints, u: Unit)
    requires Rejected(c, u)
    ensures Matching(df, c) == Matching(df, Without(c, u))
  {
    var d := Without(c, u);
    forall p ensures Admitted(c, p) == Admitted(d, p) {
      assert !Accepted(c, u) && !Accepted(d, u);
      assert forall v :: v != u ==> UnitAdmits(c, v, p) == UnitAdmits(d, v, p);
    }
    MatchingSameAdmission(df, c, d);
  }

  /** With no accepted range the result is `df[status mask]`: every plot that is not sold out. */
  lemma NoRangeKeepsUnsold(df: seq<Plot>, c: Constraints)
    requires forall u :: !Accepted(c, u)
    ensures Matching(df, c) == Select(df, StatusMask(df))
  {
    SelectIsMatching(df, StatusMask(df), c);
  }

  /** Filtering by `m` is filtering by `a` and then by `b` when `m` admits exactly what both do. */
  lemma {:induction false} MatchingTwice(df: seq<Plot>, a: Constraints, b: Constraints, m: Constraints)
    requires forall p :: Admitted(m, p) == (Admitted(a, p) && Admitted(b, p))
    ensures Matching(df, m) == Matching(Matching(df, a), b)
    decreases |df|
  {
    if df != [] {
      var head := if Admitted(a, df[0]) then [df[0]] else [];
      MatchingAppend(head, Matching(df[1..], a), b);
      MatchingTwice(df[1..], a, b, m);
      if Admitted(a, df[0]) {
        assert [df[0]][1..] == [];
      }
    }
  }

  /** Merging inputs that share no checkbox admits exactly what both admit. */
  lemma MergeAdmits(a: Constraints, b: Constraints, p: Plot)
    requires Disjoint(a, b)
    ensures Admitted(Merge(a, b), p) == (Admitted(a, p) && Admitted(b, p))
  {
  }

  /**
   * Ranges on different units compose by conjunction: with both on, the result is the
   * first filter's result filtered again by the second, in either order, and a plot is
   * listed exactly when each filter alone lists it.
   */
  lemma ConjunctionIsIntersection(df: seq<Plot>, a: Constraints, b: Constraints)
    requires Disjoint(a, b)
    ensures Matching(df, Merge(a, b)) == Matching(Matching(df, a), b)
    ensures Matching(df, Merge(a, b)) == Matching(Matching(df, b), a)
    ensures forall p :: p in Matching(df, Merge(a, b)) <==> p in Matching(df, a) && p in Matching(df, b)
  {
    forall p ensures Admitted(Merge(a, b), p) == (Admitted(a, p) && Admitted(b, p)) {
      MergeAdmits(a, b, p);
    }
    MatchingTwice(df, a, b, Merge(a, b));
    MatchingTwice(df, b, a, Merge(a, b));
    forall p ensures p in Matching(df, Merge(a, b)) <==> p in Matching(df, a) && p in Matching(df, b) {
      MatchingMember(df, Merge(a, b), p);
      MatchingMember(df, a, p);
      MatchingMember(df, b, p);
    }
  }

  /** The result keeps table order, invents nothing and repeats no row. */
  lemma MatchingIsSubsequence(df: seq<Plot>, c: Constraints)
    ensures IsSubsequence(Matching(df, c), df)
    ensures multiset(Matching(df, c)) <= multiset(df)
  {
    var mask := seq(|df|, i requires 0 <= i < |df| => Admitted(c, df[i]));
    SelectIsMatching(df, mask, c);
    SelectSubsequence(df, mask);
  }

  /**
   * Which row passes never depends on the plot number, the net or built-up area or the
   * discounted rate: the budget reads the rate and the area units the total area.
   */
  lemma AdmissionReadsRateTotalStatus(c: Constraints, p: Plot, q: Plot)
    requires p.rate == q.rate && p.totalSqft == q.totalSqft && p.status == q.status
    ensures Admitted(c, p) == Admitted(c, q)
  {
  }

  /** Both ends of an accepted range are included; a missing cell is never included. */
  lemma RangeIsInclusive(p: Plot, u: Unit, lo: real, hi: real)
    requires lo < hi
    ensures Column(p, u) == Some(lo) ==> Satisfies(p, Range(u, lo, hi))
    ensures Column(p, u) == Some(hi) ==> Satisfies(p, Range(u, lo, hi))
    ensures Column(p, u).None? ==> !Satisfies(p, Range(u, lo, hi))
  {
  }

  /**
   * Two plots: NO 1 at rate 650000 and 1000 sq ft, available; NO 2 at rate 750000 and
   * 1200 sq ft, sold out. A budget of 600000 to 700000 lists plot 1 only; a budget of
   * 0 to 0 is rejected with a warning and lists plot 1 again, plot 2 staying hidden.
   */
  lemma TwoPlotExample()
    ensures var p1 := Plot(Some(1), None, None, Some(1000.0), Some(650000.0), None, "Available");
            var p2 := Plot(Some(2), None, None, Some(1200.0), Some(750000.0), None, "Sold Out");
            var inRange := NoConstraints.(budget := Some((600000.0, 700000.0)));
            var empty := NoConstraints.(budget := Some((0.0, 0.0)));
            Matching([p1, p2], inRange) == [p1] &&
            Rejected(empty, Budget) && Matching([p1, p2], empty) == [p1]
  {
  }
}
