/** Turnover-trend anomalies (src/compliance_engine/financial/trend.py). */
module TurnoverTrend {
  import opened Ordering

  type Turnover = x: real | x >= 0.0 witness 0.0

  /** Turnover reported for the financial year starting in `year`. */
  datatype Point = Point(year: int, turnover: Turnover, evidenceId: Option<string>)

  datatype Anomaly = MissingYear(from: int, to: int) | AbruptChange(from: int, to: int)

  /** What is reported: the anomaly, all years of the history, and their evidence. */
  datatype Warning = Warning(anomaly: Anomaly, years: seq<int>, evidenceRefs: seq<string>)

  const MAX_ANNUAL_TREND_RATIO := 10.0
  const MIN_TREND_YEARS := 3

  predicate HasYear(points: seq<Point>, year: int) {
    exists p :: p in points && p.year == year
  }

  /** The first point of each year, in the order the years were first seen. */
  function FirstByYear(points: seq<Point>): seq<Point> {
    if points == [] then []
    else
      var before, p := FirstByYear(points[..|points| - 1]), points[|points| - 1];
      if HasYear(before, p.year) then before else before + [p]
  }

  predicate EarlierYear(a: Point, b: Point) { a.year <= b.year }

  function Ordered(points: seq<Point>): seq<Point> {
    SortBy(FirstByYear(points), EarlierYear)
  }

  /** The larger over the smaller of two turnovers; None stands for infinity. */
  function Ratio(a: Turnover, b: Turnover): Option<real> {
    var lo, hi := if a <= b then a else b, if a <= b then b else a;
    if lo == 0.0 && hi > 0.0 then None
    else if lo == 0.0 then Some(1.0)
    else Some(hi / lo)
  }

  predicate Jumps(a: Turnover, b: Turnover) {
    Ratio(a, b).None? || Ratio(a, b).value > MAX_ANNUAL_TREND_RATIO
  }

  function FirstGap(o: seq<Point>): Option<Anomaly> {
    if |o| < 2 then None
    else if o[1].year - o[0].year > 1 then Some(MissingYear(o[0].year, o[1].year))
    else FirstGap(o[1..])
  }

  function FirstJump(o: seq<Point>): Option<Anomaly> {
    if |o| < 2 then None
    else if Jumps(o[0].turnover, o[1].turnover) then Some(AbruptChange(o[0].year, o[1].year))
    else FirstJump(o[1..])
  }

  /** The verdict on points in year order: too few years, a gap, a jump, or nothing. */
  function Verdict(o: seq<Point>): Option<Anomaly> {
    if |o| < MIN_TREND_YEARS then None
    else if FirstGap(o).Some? then FirstGap(o)
    else FirstJump(o)
  }

  function Years(o: seq<Point>): seq<int> {
    if o == [] then [] else [o[0].year] + Years(o[1..])
  }

  /** The evidence ids of the points that have one. */
  function EvidenceRefs(o: seq<Point>): seq<string> {
    if o == [] then []
    else if o[0].evidenceId.Some? && o[0].evidenceId.value != "" then [o[0].evidenceId.value] + EvidenceRefs(o[1..])
    else EvidenceRefs(o[1..])
  }

  function WarningFor(o: seq<Point>): Option<Warning> {
    if Verdict(o).None? then None else Some(Warning(Verdict(o).value, Years(o), EvidenceRefs(o)))
  }

  method DetectTurnoverTrendAnomaly(points: seq<Point>) returns (warning: Option<Warning>)
    ensures warning == WarningFor(Ordered(points))
    ensures warning.None? <==>
              |Ordered(points)| < 3 || forall i :: !GapAt(Ordered(points), i) && !JumpAt(Ordered(points), i)
    ensures warning.Some? ==> Reports(Ordered(points), warning.value)
  {
    WarningReports(Ordered(points));
    hide Reports, GapAt, JumpAt;
    var byYear: seq<Point> := [];
    for i := 0 to |points|
      invariant byYear == FirstByYear(points[..i])
    {
      assert points[..i + 1][..i] == points[..i];
      if !HasYear(byYear, points[i].year) {
        byYear := byYear + [points[i]];
      }
    }
    assert points[..|points|] == points;
    var o := SortBy(byYear, EarlierYear);
    if |o| < MIN_TREND_YEARS {
      return None;
    }
    for i := 0 to |o| - 1
      invariant FirstGap(o) == FirstGap(o[i..])
    {
      assert o[i..][1..] == o[i + 1..];
      if o[i + 1].year - o[i].year > 1 {
        return Some(Warning(MissingYear(o[i].year, o[i + 1].year), Years(o), EvidenceRefs(o)));
      }
    }
    for i := 0 to |o| - 1
      invariant FirstJump(o) == FirstJump(o[i..])
    {
      assert o[i..][1..] == o[i + 1..];
      if Jumps(o[i].turnover, o[i + 1].turnover) {
        return Some(Warning(AbruptChange(o[i].year, o[i + 1].year), Years(o), EvidenceRefs(o)));
      }
    }
    return None;
  }

  // ----- the ordered points -----

  ghost predicate IncreasingYears(o: seq<Point>) {
    forall i, j :: 0 <= i < j < |o| ==> o[i].year < o[j].year
  }

  ghost predicate DistinctYears(s: seq<Point>) {
    forall i, j :: 0 <= i < j < |s| ==> s[i].year != s[j].year
  }

  lemma {:induction false} FirstByYearIs(points: seq<Point>)
    ensures DistinctYears(FirstByYear(points))
    ensures forall p :: p in FirstByYear(points) ==> p in points
    ensures forall p :: p in points ==> HasYear(FirstByYear(points), p.year)
  {
    if points != [] {
      var init, p := points[..|points| - 1], points[|points| - 1];
      assert points == init + [p];
      FirstByYearIs(init);
      var before, f := FirstByYear(init), FirstByYear(points);
      assert forall q :: q in before ==> q in f;
      assert HasYear(f, p.year) by {
        if !HasYear(before, p.year) { assert p in f; }
      }
      if !HasYear(before, p.year) {
        forall i | 0 <= i < |before| ensures before[i].year != p.year {
          assert before[i] in before;
        }
      }
    }
  }

  lemma {:induction false} InsertIncreasing(p: Point, s: seq<Point>)
    requires IncreasingYears(s) && !HasYear(s, p.year)
    ensures IncreasingYears(Insert(p, s, EarlierYear))
  {
    if s != [] {
      assert s[0] in s;
      if !EarlierYear(p, s[0]) {
        var rest := Insert(p, s[1..], EarlierYear);
        InsertIncreasing(p, s[1..]);
        InsertPermutes(p, s[1..], EarlierYear);
        forall i | 0 <= i < |rest| ensures s[0].year < rest[i].year {
          assert rest[i] in rest;
        }
      }
    }
  }

  lemma {:induction false} SortIncreasing(s: seq<Point>)
    requires DistinctYears(s)
    ensures IncreasingYears(SortBy(s, EarlierYear))
    ensures forall p :: p in SortBy(s, EarlierYear) <==> p in s
  {
    if s != [] {
      SortIncreasing(s[1..]);
      var t := SortBy(s[1..], EarlierYear);
      InsertPermutes(s[0], t, EarlierYear);
      assert forall p :: p in s <==> p == s[0] || p in s[1..];
      InsertIncreasing(s[0], t);
    }
  }

  /** Ordered points: one reported point for each reported year, years increasing. */
  lemma OrderedIs(points: seq<Point>)
    ensures IncreasingYears(Ordered(points))
    ensures forall p :: p in Ordered(points) ==> p in points
    ensures forall p :: p in points ==> HasYear(Ordered(points), p.year)
  {
    FirstByYearIs(points);
    SortIncreasing(FirstByYear(points));
    forall p | p in points ensures HasYear(Ordered(points), p.year) {
      assert HasYear(FirstByYear(points), p.year);
    }
  }

  // ----- what a warning reports -----

  ghost predicate GapAt(o: seq<Point>, i: int) {
    0 <= i < |o| - 1 && o[i + 1].year - o[i].year > 1
  }

  /** One of two neighbours is more than ten times the other. */
  ghost predicate JumpAt(o: seq<Point>, i: int) {
    0 <= i < |o| - 1 && (o[i].turnover > 10.0 * o[i + 1].turnover || o[i + 1].turnover > 10.0 * o[i].turnover)
  }

  ghost predicate FirstGapIs(o: seq<Point>, i: int) {
    GapAt(o, i) && forall j :: 0 <= j < i ==> !GapAt(o, j)
  }

  ghost predicate FirstJumpIs(o: seq<Point>, i: int) {
    JumpAt(o, i) && forall j :: 0 <= j < i ==> !JumpAt(o, j)
  }

  ghost predicate Between(o: seq<Point>, i: int, from: int, to: int) {
    0 <= i < |o| - 1 && from == o[i].year && to == o[i + 1].year
  }

  /** A warning names the first gap or, without gaps, the first jump, and gives all years
      and the evidence there is for them. */
  ghost predicate Reports(o: seq<Point>, w: Warning) {
    && |o| >= 3
    && (match w.anomaly
        case MissingYear(a, b) => exists i :: FirstGapIs(o, i) && Between(o, i, a, b)
        case AbruptChange(a, b) => (forall j :: !GapAt(o, j)) && exists i :: FirstJumpIs(o, i) && Between(o, i, a, b))
    && |w.years| == |o| && (forall i :: 0 <= i < |o| ==> w.years[i] == o[i].year)
    && Evidences(o, w.evidenceRefs)
  }

  /** The references are the evidence ids of the points in turn, none for a point without
      one. */
  ghost predicate Evidences(o: seq<Point>, refs: seq<string>) {
    if o == [] then refs == []
    else
      var last := o[|o| - 1].evidenceId;
      if last.None? || last.value == "" then Evidences(o[..|o| - 1], refs)
      else refs != [] && refs[|refs| - 1] == last.value && Evidences(o[..|o| - 1], refs[..|refs| - 1])
  }

  lemma {:induction false} YearsAre(o: seq<Point>)
    ensures |Years(o)| == |o| && forall i :: 0 <= i < |o| ==> Years(o)[i] == o[i].year
  {
    if o != [] {
      YearsAre(o[1..]);
    }
  }

  lemma {:induction false} EvidenceSnoc(o: seq<Point>, p: Point)
    ensures EvidenceRefs(o + [p]) ==
            if p.evidenceId.Some? && p.evidenceId.value != ""
            then EvidenceRefs(o) + [p.evidenceId.value] else EvidenceRefs(o)
  {
    if o == [] {
      assert o + [p] == [p];
    } else {
      assert (o + [p])[1..] == o[1..] + [p];
      EvidenceSnoc(o[1..], p);
    }
  }

  lemma {:induction false} EvidencesAre(o: seq<Point>)
    ensures Evidences(o, EvidenceRefs(o))
  {
    if o != [] {
      var init, p := o[..|o| - 1], o[|o| - 1];
      assert o == init + [p];
      EvidencesAre(init);
      EvidenceSnoc(init, p);
      hide EvidenceRefs;
      if p.evidenceId.Some? && p.evidenceId.value != "" {
        assert (EvidenceRefs(init) + [p.evidenceId.value])[..|EvidenceRefs(init)|] == EvidenceRefs(init);
      }
    }
  }

  lemma {:induction false} FirstGapAt(o: seq<Point>) returns (i: nat)
    ensures FirstGap(o).None? ==> forall j :: !GapAt(o, j)
    ensures FirstGap(o).Some? ==>
              && FirstGap(o).value.MissingYear? && FirstGapIs(o, i)
              && Between(o, i, FirstGap(o).value.from, FirstGap(o).value.to)
  {
    i := 0;
    if |o| >= 2 && o[1].year - o[0].year <= 1 {
      var h := FirstGapAt(o[1..]);
      i := h + 1;
      forall j | 0 < j ensures GapAt(o[1..], j - 1) <==> GapAt(o, j) {
      }
    }
  }

  lemma {:induction false} FirstJumpAt(o: seq<Point>) returns (i: nat)
    ensures FirstJump(o).None? ==> forall j :: !JumpAt(o, j)
    ensures FirstJump(o).Some? ==>
              && FirstJump(o).value.AbruptChange? && FirstJumpIs(o, i)
              && Between(o, i, FirstJump(o).value.from, FirstJump(o).value.to)
  {
    i := 0;
    if |o| >= 2 {
      JumpsIff(o[0].turnover, o[1].turnover);
      hide Jumps;
      if !Jumps(o[0].turnover, o[1].turnover) {
        var h := FirstJumpAt(o[1..]);
        i := h + 1;
        forall j | 0 < j ensures JumpAt(o, j) <==> JumpAt(o[1..], j - 1) {
        }
      }
    }
  }

  lemma WarningReports(o: seq<Point>)
    ensures WarningFor(o).None? <==> |o| < 3 || forall i :: !GapAt(o, i) && !JumpAt(o, i)
    ensures WarningFor(o).Some? ==> Reports(o, WarningFor(o).value)
  {
    YearsAre(o);
    EvidencesAre(o);
    var g := FirstGapAt(o);
    var j := FirstJumpAt(o);
    hide GapAt, JumpAt, Between, FirstGap, FirstJump, Years, EvidenceRefs, Evidences;
  }

  // ----- what "no anomaly" means -----

  lemma JumpsIff(a: Turnover, b: Turnover)
    ensures Jumps(a, b) <==> a > 10.0 * b || b > 10.0 * a
  {
    var lo, hi := if a <= b then a else b, if a <= b then b else a;
    if lo > 0.0 {
      QuotientAbove(hi, lo);
    }
  }

  lemma QuotientAbove(hi: real, lo: real)
    requires lo > 0.0
    ensures hi / lo > 10.0 <==> hi > 10.0 * lo
  {
    var q := hi / lo;
    assert q * lo == hi;
    if q > 10.0 {
      assert q * lo > 10.0 * lo;
    } else {
      assert q * lo <= 10.0 * lo;
    }
  }

  ghost predicate Consecutive(o: seq<Point>) {
    forall i :: 0 <= i < |o| - 1 ==> o[i + 1].year == o[i].year + 1
  }

  ghost predicate Gradual(o: seq<Point>) {
    forall i :: 0 <= i < |o| - 1 ==>
        o[i].turnover <= 10.0 * o[i + 1].turnover && o[i + 1].turnover <= 10.0 * o[i].turnover
  }

  lemma {:induction false} NoGapIff(o: seq<Point>)
    requires IncreasingYears(o)
    ensures FirstGap(o).None? <==> Consecutive(o)
  {
    if |o| >= 2 {
      NoGapIff(o[1..]);
      if Consecutive(o) {
        assert o[0 + 1].year == o[0].year + 1;
        forall i | 0 <= i < |o[1..]| - 1 ensures o[1..][i + 1].year == o[1..][i].year + 1 {
          assert o[(i + 1) + 1].year == o[i + 1].year + 1;
        }
      }
      if FirstGap(o).None? {
        forall i | 0 <= i < |o| - 1 ensures o[i + 1].year == o[i].year + 1 {
          if i > 0 {
            assert o[1..][(i - 1) + 1].year == o[1..][i - 1].year + 1;
          }
        }
      }
    }
  }

  lemma {:induction false} NoJumpIff(o: seq<Point>)
    ensures FirstJump(o).None? <==> Gradual(o)
  {
    hide Jumps;
    if |o| >= 2 {
      NoJumpIff(o[1..]);
      JumpsIff(o[0].turnover, o[1].turnover);
      if Gradual(o) {
        assert o[0].turnover <= 10.0 * o[0 + 1].turnover;
        forall i | 0 <= i < |o[1..]| - 1
          ensures o[1..][i].turnover <= 10.0 * o[1..][i + 1].turnover
                  && o[1..][i + 1].turnover <= 10.0 * o[1..][i].turnover
        {
          assert o[i + 1].turnover <= 10.0 * o[(i + 1) + 1].turnover;
        }
      }
      if FirstJump(o).None? {
        forall i | 0 <= i < |o| - 1
          ensures o[i].turnover <= 10.0 * o[i + 1].turnover && o[i + 1].turnover <= 10.0 * o[i].turnover
        {
          if i > 0 {
            assert o[1..][i - 1].turnover <= 10.0 * o[1..][(i - 1) + 1].turnover;
          }
        }
      }
    }
  }

  function PowerOfTen(n: nat): real {
    if n == 0 then 1.0 else 10.0 * PowerOfTen(n - 1)
  }

  lemma ScaleUp(p: real, a: real, b: real)
    requires a <= p * b
    ensures 10.0 * a <= (10.0 * p) * b
  {
  }

  lemma {:induction false} FactorBound(o: seq<Point>, i: nat, j: nat)
    requires Gradual(o) && i <= j < |o|
    ensures o[i].turnover <= PowerOfTen(j - i) * o[j].turnover
    ensures o[j].turnover <= PowerOfTen(j - i) * o[i].turnover
    decreases j - i
  {
    if i < j {
      var p := PowerOfTen(j - i - 1);
      FactorBound(o, i + 1, j);
      assert o[i].turnover <= 10.0 * o[i + 1].turnover && o[i + 1].turnover <= 10.0 * o[i].turnover;
      ScaleUp(p, o[i + 1].turnover, o[j].turnover);
      PowerPositive(j - i - 1);
      Chain(p, o[j].turnover, o[i + 1].turnover, o[i].turnover);
    }
  }

  lemma PowerPositive(n: nat)
    ensures PowerOfTen(n) > 0.0
  {
  }

  lemma Chain(p: real, c: real, b: real, a: real)
    requires p > 0.0 && c <= p * b && b <= 10.0 * a
    ensures c <= (10.0 * p) * a
  {
    assert p * b <= p * (10.0 * a);
  }

  /** On at least three distinct years: no anomaly exactly when the years are
      consecutive and neighbours stay within the ratio. */
  lemma NoAnomalyIff(points: seq<Point>)
    requires |Ordered(points)| >= MIN_TREND_YEARS
    ensures Verdict(Ordered(points)).None? <==> Consecutive(Ordered(points)) && Gradual(Ordered(points))
  {
    OrderedIs(points);
    NoGapIff(Ordered(points));
    NoJumpIff(Ordered(points));
    hide Ordered, FirstGap, FirstJump, Consecutive, Gradual;
  }

  /** Without an anomaly any two turnovers are within ten to the number of years
      apart, so that one is zero only together with all. */
  lemma NoAnomalyBoundsGrowth(points: seq<Point>, i: nat, j: nat)
    requires |Ordered(points)| >= MIN_TREND_YEARS && i <= j < |Ordered(points)|
    requires Verdict(Ordered(points)).None?
    ensures var o := Ordered(points);
            && o[j].year == o[i].year + (j - i)
            && o[i].turnover <= PowerOfTen(j - i) * o[j].turnover
            && o[j].turnover <= PowerOfTen(j - i) * o[i].turnover
            && (o[i].turnover == 0.0 <==> o[j].turnover == 0.0)
  {
    hide Ordered, FirstGap, FirstJump, Consecutive, Gradual, Verdict;
    var o := Ordered(points);
    NoAnomalyIff(points);
    FactorBound(o, i, j);
    ConsecutiveYears(o, i, j);
    ZeroTogether(PowerOfTen(j - i), o[i].turnover, o[j].turnover);
  }

  lemma ZeroTogether(p: real, a: Turnover, b: Turnover)
    requires a <= p * b && b <= p * a
    ensures a == 0.0 <==> b == 0.0
  {
  }

  lemma {:induction false} ConsecutiveYears(o: seq<Point>, i: nat, j: nat)
    requires Consecutive(o) && i <= j < |o|
    ensures o[j].year == o[i].year + (j - i)
    decreases j - i
  {
    if i < j {
      ConsecutiveYears(o, i, j - 1);
      assert o[(j - 1) + 1].year == o[j - 1].year + 1;
    }
  }

  // ----- units do not matter -----

  function Rescaled(c: Turnover, p: Point): (q: Point)
    ensures q.year == p.year && q.evidenceId == p.evidenceId
  {
    Point(p.year, c * p.turnover, p.evidenceId)
  }

  function Scale(c: Turnover, points: seq<Point>): (r: seq<Point>)
    ensures |r| == |points| && forall i :: 0 <= i < |r| ==> r[i] == Rescaled(c, points[i])
  {
    seq(|points|, i requires 0 <= i < |points| => Rescaled(c, points[i]))
  }

  lemma ScaleConcat(c: Turnover, a: seq<Point>, b: seq<Point>)
    ensures Scale(c, a + b) == Scale(c, a) + Scale(c, b)
  {
    hide Rescaled;
  }

  lemma ScaleCons(c: Turnover, s: seq<Point>)
    requires s != []
    ensures Scale(c, s) == [Rescaled(c, s[0])] + Scale(c, s[1..])
    ensures Scale(c, s)[1..] == Scale(c, s[1..])
  {
    hide Rescaled;
  }

  lemma SameYears(c: Turnover, s: seq<Point>, y: int)
    ensures HasYear(s, y) <==> HasYear(Scale(c, s), y)
  {
    hide Rescaled;
    if p :| p in s && p.year == y {
      var i :| 0 <= i < |s| && s[i] == p;
      assert Scale(c, s)[i] in Scale(c, s);
    }
    if q :| q in Scale(c, s) && q.year == y {
      var i :| 0 <= i < |s| && Scale(c, s)[i] == q;
      assert s[i] in s;
    }
  }

  lemma {:induction false} ScaledFirst(c: Turnover, points: seq<Point>)
    ensures FirstByYear(Scale(c, points)) == Scale(c, FirstByYear(points))
  {
    hide Rescaled, Scale, HasYear;
    if points != [] {
      var init, p := points[..|points| - 1], points[|points| - 1];
      var s := Scale(c, points);
      assert s[..|s| - 1] == Scale(c, init);
      ScaledFirst(c, init);
      SameYears(c, FirstByYear(init), p.year);
      ScaleConcat(c, FirstByYear(init), [p]);
      assert Scale(c, [p]) == [Rescaled(c, p)];
    }
  }

  lemma {:induction false} ScaledInsert(c: Turnover, p: Point, s: seq<Point>)
    ensures Insert(Rescaled(c, p), Scale(c, s), EarlierYear) == Scale(c, Insert(p, s, EarlierYear))
  {
    hide Rescaled, Scale;
    if s == [] || EarlierYear(p, s[0]) {
      ScaleConcat(c, [p], s);
      assert Scale(c, [p]) == [Rescaled(c, p)];
    } else {
      ScaledInsert(c, p, s[1..]);
      ScaleCons(c, s);
      ScaleConcat(c, [s[0]], Insert(p, s[1..], EarlierYear));
      assert Scale(c, [s[0]]) == [Rescaled(c, s[0])];
    }
  }

  lemma {:induction false} ScaledSort(c: Turnover, s: seq<Point>)
    ensures SortBy(Scale(c, s), EarlierYear) == Scale(c, SortBy(s, EarlierYear))
  {
    hide Rescaled, Scale, Insert;
    if s != [] {
      ScaledSort(c, s[1..]);
      ScaleCons(c, s);
      ScaledInsert(c, s[0], SortBy(s[1..], EarlierYear));
    }
  }

  lemma ScaledJump(c: Turnover, p: Point, q: Point)
    requires c > 0.0
    ensures Jumps(Rescaled(c, p).turnover, Rescaled(c, q).turnover) <==> Jumps(p.turnover, q.turnover)
  {
    var a, b := p.turnover, q.turnover;
    var x, y := Rescaled(c, p).turnover, Rescaled(c, q).turnover;
    hide Jumps;
    JumpsIff(a, b);
    JumpsIff(x, y);
    ScaleCompare(c, a, b, x, y);
    ScaleCompare(c, b, a, y, x);
  }

  lemma ScaleCompare(c: real, a: real, b: real, x: real, y: real)
    requires c > 0.0 && x == c * a && y == c * b
    ensures x > 10.0 * y <==> a > 10.0 * b
  {
    var d := 10.0 * b;
    assert 10.0 * y == c * d;
    if a > d {
      assert c * a > c * d;
    } else {
      assert c * a <= c * d;
    }
  }

  lemma {:induction false} ScaledScans(c: Turnover, o: seq<Point>)
    requires c > 0.0
    ensures FirstGap(Scale(c, o)) == FirstGap(o)
    ensures FirstJump(Scale(c, o)) == FirstJump(o)
  {
    hide Jumps, Rescaled, Scale;
    if |o| >= 2 {
      ScaledScans(c, o[1..]);
      ScaleCons(c, o);
      ScaledJump(c, o[0], o[1]);
    }
  }

  lemma {:induction false} ScaledReports(c: Turnover, o: seq<Point>)
    ensures Years(Scale(c, o)) == Years(o) && EvidenceRefs(Scale(c, o)) == EvidenceRefs(o)
  {
    hide Rescaled, Scale;
    if o != [] {
      ScaledReports(c, o[1..]);
      ScaleCons(c, o);
    }
  }

  /** Expressing all turnovers in another unit leaves the warning as it is. */
  lemma UnitsIrrelevant(c: Turnover, points: seq<Point>)
    requires c > 0.0
    ensures WarningFor(Ordered(Scale(c, points))) == WarningFor(Ordered(points))
  {
    ScaledReports(c, Ordered(points));
    ScaledFirst(c, points);
    ScaledSort(c, FirstByYear(points));
    ScaledScans(c, Ordered(points));
  }
}
