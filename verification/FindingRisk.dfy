/** Case scoring by dominant-plus-decay (src/finding_risk_scorer.py). Scores are
    exact reals; the final rounding to hundredths is modelled. */
module FindingRisk {
  import opened Ordering
  import opened Rounding

  datatype Severity = LOW | MEDIUM | HIGH | CRITICAL

  datatype Category = GREEN | YELLOW | RED

  type Confidence = c: real | 0.0 <= c <= 1.0 witness 0.0

  datatype Finding = Finding(
    findingId: string,
    severity: Severity,
    confidence: Confidence,
    relatedBidders: seq<string>
  ) {
    function WeightedRisk(): real {
      SeverityWeight(severity) * confidence
    }
  }

  datatype Scorer = Scorer(
    greenCeiling: real,
    yellowCeiling: real,
    overrideConfidence: real,
    decay: real
  )

  datatype CaseResult = CaseResult(
    score: real,
    category: Category,
    overrideTriggered: bool,
    dominant: Option<Finding>,
    relatedNetwork: seq<string>
  )

  const DEFAULT_SCORER := Scorer(3.0, 6.5, 0.85, 0.5)

  function SeverityWeight(s: Severity): real {
    match s
    case LOW => 2.0
    case MEDIUM => 4.0
    case HIGH => 7.0
    case CRITICAL => 10.0
  }

  /** The confidence read from a raw record: percentages are accepted, and the
      result is clamped. */
  function NormalizeConfidence(raw: real): Confidence {
    var c := if raw > 1.0 then raw / 100.0 else raw;
    if c < 0.0 then 0.0 else if c > 1.0 then 1.0 else c
  }

  function SeverityRank(c: Category): nat {
    match c
    case GREEN => 0
    case YELLOW => 1
    case RED => 2
  }

  function Categorize(scorer: Scorer, score: real): Category {
    if score <= scorer.greenCeiling then GREEN
    else if score <= scorer.yellowCeiling then YELLOW
    else RED
  }

  predicate ByRiskDescending(a: Finding, b: Finding) {
    a.WeightedRisk() >= b.WeightedRisk()
  }

  function Ranked(findings: seq<Finding>): seq<Finding> {
    SortBy(findings, ByRiskDescending)
  }

  function Weights(findings: seq<Finding>): (w: seq<real>)
    ensures |w| == |findings|
    ensures forall i :: 0 <= i < |w| ==> w[i] == findings[i].WeightedRisk()
  {
    seq(|findings|, i requires 0 <= i < |findings| => findings[i].WeightedRisk())
  }

  /** Multiplication under a name, so that proofs meet it through its laws only. */
  function Times(x: real, y: real): real {
    x * y
  }

  function Pow(d: real, k: nat): real {
    if k == 0 then 1.0 else Times(d, Pow(d, k - 1))
  }

  /** The sum of w[i] * d^i, in Horner form. */
  function Decayed(d: real, w: seq<real>): real {
    if w == [] then 0.0 else w[0] + Times(d, Decayed(d, w[1..]))
  }

  function RawRisk(d: real, findings: seq<Finding>): real {
    Decayed(d, Weights(Ranked(findings)))
  }

  predicate Overrides(scorer: Scorer, f: Finding) {
    f.severity == CRITICAL && f.confidence >= scorer.overrideConfidence
  }

  predicate OverrideTriggered(scorer: Scorer, findings: seq<Finding>) {
    exists i :: 0 <= i < |findings| && Overrides(scorer, findings[i])
  }

  function ScaledScore(scorer: Scorer, findings: seq<Finding>): real {
    var raw := RawRisk(scorer.decay, findings);
    Round2(if raw < 10.0 then raw else 10.0)
  }

  function CaseCategory(scorer: Scorer, findings: seq<Finding>): Category {
    if findings == [] then GREEN
    else if OverrideTriggered(scorer, findings) then RED
    else Categorize(scorer, ScaledScore(scorer, findings))
  }

  function Network(findings: seq<Finding>): seq<string> {
    SortedSet(set f, b | f in findings && b in f.relatedBidders :: b)
  }

  function Dominant(findings: seq<Finding>): Option<Finding> {
    if Ranked(findings) == [] then None else Some(Ranked(findings)[0])
  }

  lemma SingleDecayed(d: real, w: seq<real>)
    requires w != []
    ensures Decayed(d, w[..1]) == w[0]
  {
  }

  method Accumulate(d: real, ranked: seq<Finding>) returns (raw: real)
    requires ranked != []
    ensures raw == Decayed(d, Weights(ranked))
  {
    hide SeverityWeight, Pow, Decayed;
    ghost var w := Weights(ranked);
    SingleDecayed(d, w);
    raw := ranked[0].WeightedRisk();
    var rank := 1;
    while rank < |ranked|
      invariant 1 <= rank <= |ranked|
      invariant raw == Decayed(d, w[..rank])
    {
      DecayedStep(d, w, rank);
      raw := raw + Times(ranked[rank].WeightedRisk(), Pow(d, rank));
      rank := rank + 1;
    }
    assert w[..rank] == w;
  }

  method ScoreCase(scorer: Scorer, findings: seq<Finding>) returns (r: CaseResult)
    ensures findings == [] ==> r == CaseResult(0.0, GREEN, false, None, [])
    ensures findings != [] ==>
              r == CaseResult(ScaledScore(scorer, findings), CaseCategory(scorer, findings),
                              OverrideTriggered(scorer, findings), Dominant(findings),
                              Network(findings))
    ensures findings != [] ==>
              && (r.overrideTriggered <==>
                    exists f :: f in findings && f.severity == CRITICAL && f.confidence >= scorer.overrideConfidence)
              && (r.category == GREEN <==> !r.overrideTriggered && r.score <= scorer.greenCeiling)
              && (r.category == RED <==>
                    r.overrideTriggered || (r.score > scorer.greenCeiling && r.score > scorer.yellowCeiling))
    ensures findings != [] ==>
            exists i :: 0 <= i < |findings| && r.dominant == Some(findings[i]) && Heaviest(findings, i)
    ensures findings != [] ==> Hundredths(Capped(RawRisk(scorer.decay, findings)), r.score)
    ensures forall b :: b in r.relatedNetwork <==> exists f :: f in findings && b in f.relatedBidders
    ensures StrictlySorted(r.relatedNetwork)
  {
    if findings != [] {
      CaseIs(scorer, findings);
    }
    hide Heaviest, Hundredths;
    if findings == [] {
      return CaseResult(0.0, GREEN, false, None, []);
    }
    var ranked := Ranked(findings);
    SortKeeps(findings, ByRiskDescending);
    assert ranked != [];
    var raw := Accumulate(scorer.decay, ranked);
    var score := Round2(if raw < 10.0 then raw else 10.0);
    var forced := OverrideTriggered(scorer, findings);
    var category := if forced then RED else Categorize(scorer, score);
    r := CaseResult(score, category, forced, Some(ranked[0]), Network(findings));
  }

  // ----- what a case result says -----

  /** The weighted risk of a finding, by the severity scale of 2, 4, 7 and 10. */
  lemma RiskIs(f: Finding)
    ensures f.severity == LOW ==> f.WeightedRisk() == 2.0 * f.confidence
    ensures f.severity == MEDIUM ==> f.WeightedRisk() == 4.0 * f.confidence
    ensures f.severity == HIGH ==> f.WeightedRisk() == 7.0 * f.confidence
    ensures f.severity == CRITICAL ==> f.WeightedRisk() == 10.0 * f.confidence
  {
  }

  ghost function Capped(raw: real): real {
    if raw < 10.0 then raw else 10.0
  }

  /** The first of the findings of the highest weighted risk. */
  ghost predicate Heaviest(findings: seq<Finding>, i: nat) {
    && i < |findings|
    && (forall j :: 0 <= j < |findings| ==> findings[j].WeightedRisk() <= findings[i].WeightedRisk())
    && (forall j :: 0 <= j < i ==> findings[j].WeightedRisk() < findings[i].WeightedRisk())
  }

  lemma {:induction false} RankedFirst(findings: seq<Finding>) returns (i: nat)
    requires findings != []
    ensures Ranked(findings) != [] && i < |findings| && Ranked(findings)[0] == findings[i] && Heaviest(findings, i)
  {
    var x, rest := findings[0], findings[1..];
    hide Finding.WeightedRisk;
    if rest == [] {
      i := 0;
      assert Ranked(findings) == Insert(x, [], ByRiskDescending) by { assert Ranked([]) == []; }
    } else {
      var j := RankedFirst(rest);
      assert Ranked(findings) == Insert(x, Ranked(rest), ByRiskDescending);
      hide SortBy;
      i := if ByRiskDescending(x, rest[j]) then 0 else j + 1;
      assert forall k :: 0 < k < |findings| ==> findings[k] == rest[k - 1];
    }
  }

  lemma CaseIs(scorer: Scorer, findings: seq<Finding>)
    requires findings != []
    ensures OverrideTriggered(scorer, findings) <==>
              exists f :: f in findings && f.severity == CRITICAL && f.confidence >= scorer.overrideConfidence
    ensures exists i :: 0 <= i < |findings| && Dominant(findings) == Some(findings[i]) && Heaviest(findings, i)
    ensures Hundredths(Capped(RawRisk(scorer.decay, findings)), ScaledScore(scorer, findings))
  {
    hide Heaviest, Hundredths;
    var i := RankedFirst(findings);
    Round2Is(Capped(RawRisk(scorer.decay, findings)));
    if f :| f in findings && f.severity == CRITICAL && f.confidence >= scorer.overrideConfidence {
      var k :| 0 <= k < |findings| && findings[k] == f;
      assert Overrides(scorer, findings[k]);
    }
  }

  /** With the default policy a case is GREEN up to a raw risk of 3.005 and RED above
      6.505, the points where the rounded score leaves a threshold. */
  lemma DefaultCategories(findings: seq<Finding>)
    requires findings != []
    ensures CaseCategory(DEFAULT_SCORER, findings) == GREEN <==> RawRisk(0.5, findings) <= 3.005
    ensures CaseCategory(DEFAULT_SCORER, findings) == RED <==> RawRisk(0.5, findings) > 6.505
  {
    OverrideIsRedundant(findings);
    var raw := RawRisk(0.5, findings);
    hide RawRisk, OverrideTriggered;
    RoundedThreshold(Capped(raw), 300);
    RoundedThreshold(Capped(raw), 650);
    assert ScaledScore(DEFAULT_SCORER, findings) == Round2(Capped(raw));
    hide Round2, ScaledScore;
  }

  /** A lone finding scores its weight times its confidence. */
  lemma LoneFinding(f: Finding)
    ensures RawRisk(0.5, [f]) == f.WeightedRisk()
  {
    assert Ranked([f]) == [f] by {
      assert [f][1..] == [] && SortBy([], ByRiskDescending) == [];
    }
    SingleDecayed(0.5, Weights([f]));
    assert Weights([f])[..1] == Weights([f]);
  }

  // ----- the decayed sum -----

  lemma TimesSum(d: real, a: real, b: real)
    ensures Times(d, a + b) == Times(d, a) + Times(d, b)
  {
  }

  lemma TimesSwap(d: real, x: real, p: real)
    ensures Times(x, Times(d, p)) == Times(d, Times(x, p))
  {
  }

  lemma TimesUnit(d: real, x: real)
    ensures Times(x, 1.0) == x == Times(1.0, x) && Times(d, 0.0) == 0.0 == Times(0.0, d)
  {
  }

  lemma TimesMonotone(d: real, a: real, b: real)
    requires 0.0 <= d && a <= b
    ensures Times(d, a) <= Times(d, b)
  {
  }

  lemma {:induction false} DecayedSnoc(d: real, w: seq<real>, x: real)
    ensures Decayed(d, w + [x]) == Decayed(d, w) + Times(x, Pow(d, |w|))
  {
    TimesUnit(d, x);
    hide Times;
    if w == [] {
      assert w + [x] == [x];
    } else {
      assert (w + [x])[1..] == w[1..] + [x];
      DecayedSnoc(d, w[1..], x);
      var p := Pow(d, |w| - 1);
      TimesSum(d, Decayed(d, w[1..]), Times(x, p));
      TimesSwap(d, x, p);
    }
  }

  lemma DecayedStep(d: real, w: seq<real>, k: nat)
    requires k < |w|
    ensures Decayed(d, w[..k + 1]) == Decayed(d, w[..k]) + Times(w[k], Pow(d, k))
  {
    DecayedSnoc(d, w[..k], w[k]);
    assert w[..k + 1] == w[..k] + [w[k]];
  }

  predicate Desc(a: real, b: real) { a >= b }

  function SortDesc(w: seq<real>): seq<real> { SortBy(w, Desc) }

  lemma AddScaled(d: real, a: real, b: real, x: real, y: real)
    requires 0.0 <= d && a <= b && x <= y
    ensures a + Times(d, x) <= b + Times(d, y)
  {
    TimesMonotone(d, x, y);
  }

  /** Swapping a larger weight forward never loses risk. */
  lemma SwapGains(d: real, x: real, y: real, rest: real)
    requires 0.0 <= d <= 1.0 && x <= y
    ensures x + Times(d, y + rest) <= y + Times(d, x + rest)
  {
    TimesSum(d, y, rest);
    TimesSum(d, x, rest);
    TimesMonotone(1.0 - d, x, y);
  }

  lemma {:induction false} InsertGains(d: real, x: real, s: seq<real>)
    requires 0.0 <= d <= 1.0
    ensures Decayed(d, [x] + s) <= Decayed(d, Insert(x, s, Desc))
  {
    assert ([x] + s)[1..] == s;
    if s == [] || Desc(x, s[0]) {
    } else {
      var ins := Insert(x, s[1..], Desc);
      InsertGains(d, x, s[1..]);
      assert ([x] + s[1..])[1..] == s[1..] && ([s[0]] + ins)[1..] == ins;
      SwapGains(d, x, s[0], Times(d, Decayed(d, s[1..])));
      AddScaled(d, s[0], s[0], Decayed(d, [x] + s[1..]), Decayed(d, ins));
    }
  }

  lemma {:induction false} SortGains(d: real, s: seq<real>)
    requires 0.0 <= d <= 1.0
    ensures Decayed(d, s) <= Decayed(d, SortDesc(s))
  {
    if s != [] {
      hide Decayed, Insert;
      SortGains(d, s[1..]);
      assert s == [s[0]] + s[1..];
      InsertAfterGain(d, s[0], s[1..], SortDesc(s[1..]));
    }
  }

  lemma InsertAfterGain(d: real, x: real, s: seq<real>, t: seq<real>)
    requires 0.0 <= d <= 1.0 && Decayed(d, s) <= Decayed(d, t)
    ensures Decayed(d, [x] + s) <= Decayed(d, Insert(x, t, Desc))
  {
    hide Decayed, Insert;
    DecayedCons(d, x, s);
    DecayedCons(d, x, t);
    AddScaled(d, x, x, Decayed(d, s), Decayed(d, t));
    InsertGains(d, x, t);
  }

  lemma DecayedCons(d: real, x: real, s: seq<real>)
    ensures Decayed(d, [x] + s) == x + Times(d, Decayed(d, s))
  {
    assert ([x] + s)[1..] == s;
  }

  lemma SortDescUnique(p: seq<real>, w: seq<real>)
    requires multiset(p) == multiset(w)
    ensures SortDesc(p) == SortDesc(w)
  {
    SortUnique(p, w, Desc);
  }

  lemma WeightsConcat(f: seq<Finding>, g: seq<Finding>)
    ensures Weights(f + g) == Weights(f) + Weights(g)
  {
  }

  lemma {:induction false} WeightsOfMultiset(f: seq<Finding>, g: seq<Finding>)
    requires multiset(f) == multiset(g)
    ensures multiset(Weights(f)) == multiset(Weights(g))
  {
    if f == [] {
      InMultiset(f, g);
    } else {
      var i := PickOut(f, g);
      var rest := g[..i] + g[i + 1..];
      WeightsOfMultiset(f[1..], rest);
      WeightsConcat([f[0]], f[1..]);
      WeightsConcat(g[..i], [f[0]]);
      WeightsConcat(g[..i] + [f[0]], g[i + 1..]);
      WeightsConcat(g[..i], g[i + 1..]);
      assert f == [f[0]] + f[1..];
    }
  }

  lemma RankedWeights(f: seq<Finding>)
    ensures Weights(Ranked(f)) == SortDesc(Weights(f))
  {
    SortKeeps(f, ByRiskDescending);
    SortKeeps(Weights(f), Desc);
    WeightsOfMultiset(Ranked(f), f);
    assert IsSorted(Weights(Ranked(f)), Desc);
    SortedUnique(Weights(Ranked(f)), SortDesc(Weights(f)), Desc);
  }

  // ----- main results -----

  /** The raw risk is attained by an ordering of the findings and no ordering exceeds it. */
  lemma RawRiskIsMaximum(d: real, findings: seq<Finding>, order: seq<Finding>)
    requires 0.0 <= d <= 1.0 && multiset(order) == multiset(findings)
    ensures Decayed(d, Weights(order)) <= RawRisk(d, findings)
    ensures multiset(Ranked(findings)) == multiset(findings)
    ensures RawRisk(d, order) == RawRisk(d, findings)
  {
    SortKeeps(findings, ByRiskDescending);
    RankedWeights(findings);
    RankedWeights(order);
    WeightsOfMultiset(order, findings);
    SortDescUnique(Weights(order), Weights(findings));
    SortGains(d, Weights(order));
  }

  lemma OverrideOfMultiset(scorer: Scorer, f: seq<Finding>, g: seq<Finding>)
    requires multiset(f) <= multiset(g)
    ensures OverrideTriggered(scorer, f) ==> OverrideTriggered(scorer, g)
  {
    if OverrideTriggered(scorer, f) {
      var i :| 0 <= i < |f| && Overrides(scorer, f[i]);
      assert f[i] in multiset(f);
      assert f[i] in multiset(g);
      assert f[i] in g;
    }
  }

  /** Input order changes neither score, category, override nor network. */
  lemma OrderIrrelevant(scorer: Scorer, f: seq<Finding>, g: seq<Finding>)
    requires 0.0 <= scorer.decay <= 1.0 && multiset(f) == multiset(g)
    ensures ScaledScore(scorer, f) == ScaledScore(scorer, g)
    ensures CaseCategory(scorer, f) == CaseCategory(scorer, g)
    ensures Network(f) == Network(g)
  {
    InMultiset(f, g);
    RawRiskIsMaximum(scorer.decay, g, f);
    OverrideOfMultiset(scorer, f, g);
    OverrideOfMultiset(scorer, g, f);
    assert (set x, b | x in f && b in x.relatedBidders :: b) == (set x, b | x in g && b in x.relatedBidders :: b);
  }

  lemma CategoryMonotone(scorer: Scorer, f: seq<Finding>, g: seq<Finding>)
    requires scorer.greenCeiling <= scorer.yellowCeiling
    requires f != [] && g != []
    requires RawRisk(scorer.decay, f) <= RawRisk(scorer.decay, g)
    requires OverrideTriggered(scorer, f) ==> OverrideTriggered(scorer, g)
    ensures ScaledScore(scorer, f) <= ScaledScore(scorer, g)
    ensures SeverityRank(CaseCategory(scorer, f)) <= SeverityRank(CaseCategory(scorer, g))
  {
    var a, b := RawRisk(scorer.decay, f), RawRisk(scorer.decay, g);
    Round2Monotone(if a < 10.0 then a else 10.0, if b < 10.0 then b else 10.0);
  }

  lemma PowNonNegative(d: real, k: nat)
    requires 0.0 <= d
    ensures 0.0 <= Pow(d, k)
  {
    if k != 0 {
      PowNonNegative(d, k - 1);
      TimesMonotone(d, 0.0, Pow(d, k - 1));
      TimesUnit(d, 0.0);
    }
  }

  lemma AppendedRisk(d: real, r: seq<Finding>, x: Finding)
    requires 0.0 <= d
    ensures Decayed(d, Weights(r)) <= Decayed(d, Weights(r + [x]))
  {
    WeightsConcat(r, [x]);
    assert Weights([x]) == [x.WeightedRisk()];
    DecayedSnoc(d, Weights(r), x.WeightedRisk());
    PowNonNegative(d, |r|);
    WeightNonNegative(x);
    TimesMonotone(x.WeightedRisk(), 0.0, Pow(d, |r|));
    TimesUnit(x.WeightedRisk(), 0.0);
  }

  /** One more finding never lowers the score nor improves the category. */
  lemma AddFindingMonotone(scorer: Scorer, findings: seq<Finding>, x: Finding)
    requires 0.0 <= scorer.decay <= 1.0 && scorer.greenCeiling <= scorer.yellowCeiling
    ensures RawRisk(scorer.decay, findings) <= RawRisk(scorer.decay, findings + [x])
    ensures findings != [] ==> ScaledScore(scorer, findings) <= ScaledScore(scorer, findings + [x])
    ensures SeverityRank(CaseCategory(scorer, findings)) <= SeverityRank(CaseCategory(scorer, findings + [x]))
  {
    var d := scorer.decay;
    var order := Ranked(findings) + [x];
    SortKeeps(findings, ByRiskDescending);
    AppendedRisk(d, Ranked(findings), x);
    RawRiskIsMaximum(d, findings + [x], order);
    OverrideOfMultiset(scorer, findings, findings + [x]);
    if findings != [] {
      CategoryMonotone(scorer, findings, findings + [x]);
    }
  }

  lemma {:induction false} DecayedPointwise(d: real, v: seq<real>, w: seq<real>)
    requires 0.0 <= d && |v| == |w|
    requires forall i :: 0 <= i < |v| ==> v[i] <= w[i]
    ensures Decayed(d, v) <= Decayed(d, w)
  {
    if v != [] {
      DecayedPointwise(d, v[1..], w[1..]);
      AddScaled(d, v[0], w[0], Decayed(d, v[1..]), Decayed(d, w[1..]));
    }
  }

  /** Replacing one finding by one of higher weighted risk never lowers the raw risk. */
  lemma RaiseRawRisk(d: real, findings: seq<Finding>, i: nat, y: Finding)
    requires 0.0 <= d <= 1.0 && i < |findings|
    requires findings[i].WeightedRisk() <= y.WeightedRisk()
    ensures RawRisk(d, findings) <= RawRisk(d, findings[i := y])
  {
    SortKeeps(findings, ByRiskDescending);
    var r := Ranked(findings);
    assert findings[i] in multiset(r);
    var j :| 0 <= j < |r| && r[j] == findings[i];
    var order := r[j := y];
    DecayedPointwise(d, Weights(r), Weights(order));
    assert multiset(order) == multiset(r) - multiset{findings[i]} + multiset{y};
    RawRiskIsMaximum(d, findings[i := y], order);
  }

  /** Under the default policy the CRITICAL override is exactly a weighted risk of at least 8.5. */
  lemma OverrideByWeight(f: Finding)
    ensures Overrides(DEFAULT_SCORER, f) <==> f.WeightedRisk() >= 8.5
  {
  }

  lemma RaiseFindingMonotone(findings: seq<Finding>, i: nat, y: Finding)
    requires i < |findings| && findings[i].WeightedRisk() <= y.WeightedRisk()
    ensures ScaledScore(DEFAULT_SCORER, findings) <= ScaledScore(DEFAULT_SCORER, findings[i := y])
    ensures SeverityRank(CaseCategory(DEFAULT_SCORER, findings)) <=
            SeverityRank(CaseCategory(DEFAULT_SCORER, findings[i := y]))
  {
    RaiseRawRisk(0.5, findings, i, y);
    if OverrideTriggered(DEFAULT_SCORER, findings) {
      var k :| 0 <= k < |findings| && Overrides(DEFAULT_SCORER, findings[k]);
      OverrideByWeight(findings[i]);
      OverrideByWeight(y);
      assert Overrides(DEFAULT_SCORER, findings[i := y][k]);
    }
    CategoryMonotone(DEFAULT_SCORER, findings, findings[i := y]);
  }

  lemma {:induction false} GeometricBound(s: seq<real>, top: real)
    requires forall i :: 0 <= i < |s| ==> 0.0 <= s[i] <= top
    ensures 0.0 <= Decayed(0.5, s)
    ensures top >= 0.0 ==> Decayed(0.5, s) <= 2.0 * top
    ensures s != [] && top > 0.0 ==> Decayed(0.5, s) < 2.0 * top
  {
    if |s| > 1 {
      GeometricBound(s[1..], top);
    }
  }

  lemma {:induction false} DecayedSplit(d: real, s: seq<real>, k: nat)
    requires k <= |s|
    ensures Decayed(d, s) == Decayed(d, s[..k]) + Times(Decayed(d, s[k..]), Pow(d, k))
  {
    TimesUnit(d, Decayed(d, s));
    hide Times;
    if k == 0 {
      assert s[0..] == s;
    } else {
      DecayedSplit(d, s[1..], k - 1);
      assert s[1..][..k - 1] == s[..k][1..] && s[1..][k - 1..] == s[k..];
      var rest, p := Decayed(d, s[k..]), Pow(d, k - 1);
      TimesSum(d, Decayed(d, s[..k][1..]), Times(rest, p));
      TimesSwap(d, rest, p);
    }
  }

  lemma TailBound(w: seq<real>, top: real, k: nat)
    requires 1 <= k <= |w| && 0.0 <= top
    requires forall i :: 0 <= i < |w| ==> 0.0 <= w[i] <= top
    ensures Decayed(0.5, w) - Decayed(0.5, w[..k]) <= Times(top, Pow(0.5, k - 1))
  {
    var p, rest := Pow(0.5, k - 1), Decayed(0.5, w[k..]);
    DecayedSplit(0.5, w, k);
    PowNonNegative(0.5, k - 1);
    GeometricBound(w[k..], top);
    assert Pow(0.5, k) == Times(0.5, p);
    HalfTail(rest, top, p);
  }

  lemma HalfTail(rest: real, top: real, p: real)
    requires 0.0 <= p && rest <= 2.0 * top
    ensures Times(rest, Times(0.5, p)) <= Times(top, p)
  {
    var half := 0.5 * p;
    TimesMonotone(half, rest, 2.0 * top);
  }

  lemma WeightNonNegative(f: Finding)
    ensures 0.0 <= f.WeightedRisk() <= SeverityWeight(f.severity)
  {
  }

  lemma RankedHead(findings: seq<Finding>)
    requires findings != []
    ensures |Ranked(findings)| == |findings| && Ranked(findings)[0] in findings
    ensures forall f :: f in findings ==> f.WeightedRisk() <= Ranked(findings)[0].WeightedRisk()
    ensures forall f :: f in Ranked(findings) ==> 0.0 <= f.WeightedRisk() <= Ranked(findings)[0].WeightedRisk()
  {
    var r := Ranked(findings);
    SortKeeps(findings, ByRiskDescending);
    InMultiset(r, findings);
    forall f | f in r ensures 0.0 <= f.WeightedRisk() <= r[0].WeightedRisk() {
      WeightNonNegative(f);
      var i :| 0 <= i < |r| && r[i] == f;
      assert i == 0 || ByRiskDescending(r[0], r[i]);
    }
  }

  lemma HeadBounds(w: seq<real>)
    requires w != [] && forall i :: 0 <= i < |w| ==> 0.0 <= w[i] <= w[0]
    ensures w[0] <= Decayed(0.5, w)
    ensures w[0] > 0.0 ==> Decayed(0.5, w) < 2.0 * w[0]
  {
    GeometricBound(w, w[0]);
    GeometricBound(w[1..], w[0]);
  }

  lemma RankedBounds(r: seq<Finding>, k: nat)
    requires 1 <= k <= |r|
    requires forall f :: f in r ==> 0.0 <= f.WeightedRisk() <= r[0].WeightedRisk()
    ensures var top, raw := r[0].WeightedRisk(), Decayed(0.5, Weights(r));
            && top <= raw
            && (top > 0.0 ==> raw < 2.0 * top)
            && raw - Decayed(0.5, Weights(r[..k])) <= Times(top, Pow(0.5, k - 1))
  {
    var w := Weights(r);
    forall i | 0 <= i < |w| ensures 0.0 <= w[i] <= w[0] { assert r[i] in r; }
    HeadBounds(w);
    TailBound(w, w[0], k);
    assert Weights(r[..k]) == w[..k];
  }

  /** The most severe finding is a floor that no number of others doubles, and
      all ranks from k on together add at most dominant * 0.5^(k-1). */
  lemma DominantBounds(findings: seq<Finding>, top: Finding, k: nat)
    requires Dominant(findings) == Some(top) && 1 <= k <= |findings|
    ensures top in findings && forall f :: f in findings ==> f.WeightedRisk() <= top.WeightedRisk()
    ensures top.WeightedRisk() <= RawRisk(0.5, findings)
    ensures top.WeightedRisk() > 0.0 ==> RawRisk(0.5, findings) < 2.0 * top.WeightedRisk()
    ensures k <= |Ranked(findings)|
    ensures RawRisk(0.5, findings) - Decayed(0.5, Weights(Ranked(findings)[..k])) <=
            Times(top.WeightedRisk(), Pow(0.5, k - 1))
  {
    hide Finding.WeightedRisk, Decayed, Pow, Weights, SortBy;
    RankedHead(findings);
    RankedBounds(Ranked(findings), k);
  }

  /** A RED case always holds a finding above 3.25. */
  lemma RedNeedsWeight(findings: seq<Finding>)
    requires CaseCategory(DEFAULT_SCORER, findings) == RED
    ensures exists f :: f in findings && f.WeightedRisk() > 3.25
  {
    RankedHead(findings);
    var top := Ranked(findings)[0];
    DominantBounds(findings, top, 1);
    OverrideIsRedundant(findings);
    var raw := RawRisk(0.5, findings);
    if raw <= 6.5 {
      Round2Monotone(raw, 6.5);
    }
    WeightNonNegative(top);
  }

  /** Any number of LOW findings stays below RED. */
  lemma LowOnlyNeverRed(findings: seq<Finding>)
    requires forall f :: f in findings ==> f.severity == LOW
    ensures CaseCategory(DEFAULT_SCORER, findings) != RED
  {
    if CaseCategory(DEFAULT_SCORER, findings) == RED {
      RedNeedsWeight(findings);
    }
  }

  /** With the default thresholds the override never decides: the score already says RED. */
  lemma OverrideIsRedundant(findings: seq<Finding>)
    requires findings != []
    ensures CaseCategory(DEFAULT_SCORER, findings) ==
            Categorize(DEFAULT_SCORER, ScaledScore(DEFAULT_SCORER, findings))
  {
    if OverrideTriggered(DEFAULT_SCORER, findings) {
      var i :| 0 <= i < |findings| && Overrides(DEFAULT_SCORER, findings[i]);
      OverrideByWeight(findings[i]);
      RankedHead(findings);
      DominantBounds(findings, Ranked(findings)[0], 1);
      var raw := RawRisk(0.5, findings);
      Round2Monotone(8.5, if raw < 10.0 then raw else 10.0);
    }
  }

  /** Confidences are read as fractions up to 1 and as percentages above, and clamped. */
  lemma ConfidenceRead(raw: real)
    ensures NormalizeConfidence(raw) ==
            if raw <= 0.0 then 0.0 else if raw <= 1.0 then raw else if raw <= 100.0 then raw / 100.0 else 1.0
  {
  }

  /** A percentage reads as its fraction exactly when it is 0 or above 1%. */
  lemma PercentagesRead(c: real)
    requires 0.0 <= c <= 1.0
    ensures NormalizeConfidence(c) == c
    ensures NormalizeConfidence(100.0 * c) == c <==> c == 0.0 || c > 0.01
  {
  }
}
