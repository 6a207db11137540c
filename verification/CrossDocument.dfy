/** Cross-document consistency (src/ai_verification/cross_document): extraction,
    comparability, pairwise comparison and per-dimension counts. The per-dimension
    normalisers of texts and the date parser are arbitrary functions. */
module CrossDocument {
  import opened Ordering

  datatype Dimension = IDENTIFIER | ADDRESS | DATE | PRODUCT | MANUFACTURER

  datatype FieldStatus = NOT_QUERIED | AVAILABLE | MISSING | INVALID

  datatype DateRole = ISSUE_DATE | EFFECTIVE_DATE | EXPIRY_DATE | REGISTRATION_DATE | CANCELLATION_DATE | FILING_DATE
      | UNKNOWN

  datatype IdentifierKind = GSTIN | PAN | UDYAM | CIN | UDIN | GENERIC

  datatype FieldSpec = FieldSpec(dimension: Dimension, kind: Option<IdentifierKind>, role: Option<DateRole>)

  /** A field value. Of one that is no text, `same` identifies what it compares equal
      to (None for a value equal to nothing, itself included), `printed` is its text,
      and `day` the canonical date of a date object. */
  datatype Value = Text(text: string) | Other(same: Option<int>, printed: string, boolean: bool, day: Option<string>)

  datatype Evidence = Evidence(
    evidenceId: string,
    bidderId: string,
    documentType: string,
    fieldName: string,
    value: Option<Value>
  )

  datatype Observation = Observation(
    evidenceId: string,
    documentType: string,
    fieldName: string,
    original: Option<Value>,
    normalized: Option<string>,
    dimension: Option<Dimension>,
    kind: Option<IdentifierKind>,
    role: Option<DateRole>,
    status: FieldStatus
  )

  /** The five outcome vocabularies of the source, under one set of names. */
  datatype Outcome = MATCH_EXACT | MATCH_NORMALIZED | MISMATCH | VALIDITY_CONFLICT | INSUFFICIENT_EVIDENCE

  datatype Comparison = Comparison(left: string, right: string, dimension: Dimension, outcome: Outcome)

  /** The normal form of a text in a dimension. */
  type Normalizer = (Dimension, string) -> Option<string>

  /** Evaluation date and parser of canonical dates, both as day numbers. */
  datatype Calendar = Calendar(evaluation: Option<int>, parse: string -> Option<int>)

  // ----- extraction -----

  const IDENTIFIER_FIELDS: map<(string, string), IdentifierKind> :=
    map[
      ("GST", "gstin") := GSTIN, ("GSTN", "gstin") := GSTIN,
      ("PAN", "pan_number") := PAN, ("PAN_INCOME_TAX", "pan_number") := PAN,
      ("UDYAM", "udyam_registration_number") := UDYAM,
      ("MCA", "cin") := CIN, ("MCA21", "cin") := CIN, ("BS", "ca_udin") := UDIN]

  const PLAIN_FIELDS: map<(string, string), Dimension> :=
    map[
      ("GST", "registered_address") := ADDRESS, ("GSTN", "registered_address") := ADDRESS,
      ("PAN", "registered_address") := ADDRESS, ("UDYAM", "registered_address") := ADDRESS,
      ("MCA21", "registered_address") := ADDRESS,
      ("OEM", "manufacturer") := MANUFACTURER, ("OEM_AUTHORIZATION", "manufacturer") := MANUFACTURER,
      ("BIS", "manufacturer") := MANUFACTURER, ("BIS_CERTIFICATION", "manufacturer") := MANUFACTURER,
      ("BIS", "product_description") := PRODUCT, ("BIS_CERTIFICATION", "product_description") := PRODUCT,
      ("MAKE_IN_INDIA", "supplier_class") := PRODUCT, ("PRODUCT", "product_description") := PRODUCT]

  const DATE_FIELDS: map<(string, string), DateRole> :=
    map[
      ("ITR", "filing_date") := FILING_DATE,
      ("ITR", "assessment_year") := UNKNOWN, ("ITR", "financial_year") := UNKNOWN]

  function ClassifyField(documentType: string, fieldName: string): Option<FieldSpec> {
    var f := (documentType, fieldName);
    if f in IDENTIFIER_FIELDS then Some(FieldSpec(IDENTIFIER, Some(IDENTIFIER_FIELDS[f]), None))
    else if f in PLAIN_FIELDS then Some(FieldSpec(PLAIN_FIELDS[f], None, None))
    else if f in DATE_FIELDS then Some(FieldSpec(DATE, None, Some(DATE_FIELDS[f])))
    else None
  }

  /** Equality of field values: a text equals no other kind of value. */
  predicate Equal(a: Value, b: Value) {
    match (a, b)
    case (Text(s), Text(t)) => s == t
    case (Other(x, _, _, _), Other(y, _, _, _)) => x.Some? && x == y
    case _ => false
  }

  /** Identifiers are printed first and dates may be date objects; otherwise only texts
      have a normal form. */
  function Normalize(normalize: Normalizer, d: Dimension, v: Value): Option<string> {
    match v
    case Text(s) => normalize(d, s)
    case Other(_, printed, boolean, day) =>
      match d
      case IDENTIFIER => if boolean then None else normalize(IDENTIFIER, printed)
      case DATE => day
      case _ => None
  }

  function Extract(e: Evidence, normalize: Normalizer): Observation {
    match ClassifyField(e.documentType, e.fieldName)
    case None =>
      Observation(e.evidenceId, e.documentType, e.fieldName, e.value, None, None, None, None, NOT_QUERIED)
    case Some(spec) =>
      var normalized := if e.value.None? then None else Normalize(normalize, spec.dimension, e.value.value);
      var status := if e.value.None? then MISSING else if normalized.None? then INVALID else AVAILABLE;
      Observation(e.evidenceId, e.documentType, e.fieldName, e.value, normalized, Some(spec.dimension), spec.kind,
                  spec.role, status)
  }

  /** What extraction guarantees of an observation. */
  predicate Extracted(o: Observation, normalize: Normalizer) {
    o.status == AVAILABLE ==>
      o.dimension.Some? && o.original.Some? && o.normalized.Some?
      && o.normalized == Normalize(normalize, o.dimension.value, o.original.value)
  }

  // ----- comparability -----

  datatype Family = ITR_FILING | GST_REGISTRATION | PAN_REGISTRATION | UDYAM_REGISTRATION | MCA_REGISTRATION
      | OEM_AUTHORIZATION

  function DateFamily(documentType: string): Option<Family> {
    if documentType == "ITR" then Some(ITR_FILING)
    else if documentType == "GST" || documentType == "GSTN" then Some(GST_REGISTRATION)
    else if documentType == "PAN" || documentType == "PAN_INCOME_TAX" then Some(PAN_REGISTRATION)
    else if documentType == "UDYAM" then Some(UDYAM_REGISTRATION)
    else if documentType == "MCA" || documentType == "MCA21" then Some(MCA_REGISTRATION)
    else if documentType == "OEM" || documentType == "OEM_AUTHORIZATION" then Some(OEM_AUTHORIZATION)
    else None
  }

  function CompatibleTypes(family: Family): set<string> {
    match family
    case ITR_FILING => {"ITR"}
    case GST_REGISTRATION => {"GST", "GSTN"}
    case PAN_REGISTRATION => {"PAN", "PAN_INCOME_TAX"}
    case UDYAM_REGISTRATION => {"UDYAM"}
    case MCA_REGISTRATION => {"MCA", "MCA21"}
    case OEM_AUTHORIZATION => {"OEM", "OEM_AUTHORIZATION"}
  }

  predicate IdentifierCompatible(l: Observation, r: Observation) {
    l.kind.Some? && r.kind.Some? && l.kind == r.kind && l.fieldName == r.fieldName
  }

  predicate DateCompatible(l: Observation, r: Observation) {
    if l.role.None? || r.role.None? then false
    else if l.role == Some(UNKNOWN) && r.role == Some(UNKNOWN) then false
    else if l.role != r.role then false
    else
      var lf, rf := DateFamily(l.documentType), DateFamily(r.documentType);
      lf.Some? && rf.Some? && r.documentType in CompatibleTypes(lf.value)
  }

  predicate AreComparable(l: Observation, r: Observation) {
    l.dimension.Some? && r.dimension.Some? && l.dimension == r.dimension
    && l.status == AVAILABLE && r.status == AVAILABLE
    && match l.dimension.value
       case IDENTIFIER => IdentifierCompatible(l, r)
       case DATE => DateCompatible(l, r)
       case _ => l.fieldName == r.fieldName
  }

  lemma FamiliesAgree(a: string, b: string)
    requires DateFamily(a).Some?
    ensures b in CompatibleTypes(DateFamily(a).value) <==> DateFamily(a) == DateFamily(b)
  {
  }

  /** Comparability is a partial equivalence: symmetric and transitive, and
      reflexive exactly where it relates an observation to anything at all. */
  lemma ComparabilityIsPartialEquivalence(a: Observation, b: Observation, c: Observation)
    ensures AreComparable(a, b) ==> AreComparable(b, a) && AreComparable(a, a)
    ensures AreComparable(a, b) && AreComparable(b, c) ==> AreComparable(a, c)
    ensures a.dimension == Some(DATE) && a.role == Some(UNKNOWN) ==> !AreComparable(a, b)
  {
    if DateFamily(a.documentType).Some? {
      FamiliesAgree(a.documentType, b.documentType);
      FamiliesAgree(a.documentType, c.documentType);
      FamiliesAgree(a.documentType, a.documentType);
    }
    if DateFamily(b.documentType).Some? {
      FamiliesAgree(b.documentType, a.documentType);
      FamiliesAgree(b.documentType, c.documentType);
    }
  }

  /** The date families, by the document types they list. */
  ghost predicate SameFamily(a: string, b: string) {
    || (a == "ITR" && b == "ITR")
    || (a in ["GST", "GSTN"] && b in ["GST", "GSTN"])
    || (a in ["PAN", "PAN_INCOME_TAX"] && b in ["PAN", "PAN_INCOME_TAX"])
    || (a == "UDYAM" && b == "UDYAM")
    || (a in ["MCA", "MCA21"] && b in ["MCA", "MCA21"])
    || (a in ["OEM", "OEM_AUTHORIZATION"] && b in ["OEM", "OEM_AUTHORIZATION"])
  }

  /** Observations are compared exactly when both are available and of one dimension,
      and are identifiers of one kind and field, dates of one known role in documents
      of one family, or others of one field. */
  lemma ComparableIff(l: Observation, r: Observation)
    ensures AreComparable(l, r) <==>
            && l.status == AVAILABLE == r.status && l.dimension.Some? && l.dimension == r.dimension
            && (l.dimension == Some(IDENTIFIER) ==> l.kind.Some? && l.kind == r.kind && l.fieldName == r.fieldName)
            && (l.dimension == Some(DATE) ==>
                  && l.role.Some? && l.role == r.role && l.role != Some(UNKNOWN)
                  && SameFamily(l.documentType, r.documentType))
            && (l.dimension != Some(IDENTIFIER) && l.dimension != Some(DATE) ==> l.fieldName == r.fieldName)
  {
  }

  // ----- comparing a pair -----

  predicate EqualOriginals(l: Observation, r: Observation) {
    match (l.original, r.original)
    case (Some(a), Some(b)) => Equal(a, b)
    case _ => l.original == r.original
  }

  function CompareNormalized(l: Observation, r: Observation): Outcome {
    if EqualOriginals(l, r) then MATCH_EXACT
    else if l.normalized == r.normalized then MATCH_NORMALIZED
    else MISMATCH
  }

  function CompareDates(l: Observation, r: Observation, cal: Calendar): Outcome
    requires l.normalized.Some? && r.normalized.Some?
  {
    if l.normalized == r.normalized then MATCH_EXACT
    else
      var lp, rp := cal.parse(l.normalized.value), cal.parse(r.normalized.value);
      if cal.evaluation.Some? && lp.Some? && rp.Some?
         && cal.evaluation.value > lp.value && cal.evaluation.value > rp.value
      then VALIDITY_CONFLICT else MISMATCH
  }

  function PairOutcome(l: Observation, r: Observation, cal: Calendar): Outcome {
    if l.dimension.None? || r.dimension.None? then INSUFFICIENT_EVIDENCE
    else if l.evidenceId == r.evidenceId then INSUFFICIENT_EVIDENCE
    else if !AreComparable(l, r) || l.normalized.None? || r.normalized.None? then INSUFFICIENT_EVIDENCE
    else if l.dimension == Some(DATE) then CompareDates(l, r, cal)
    else CompareNormalized(l, r)
  }

  function PairDimension(l: Observation, r: Observation): Dimension {
    if l.dimension.Some? then l.dimension.value
    else if r.dimension.Some? then r.dimension.value
    else IDENTIFIER
  }

  function ComparePair(l: Observation, r: Observation, cal: Calendar): Comparison {
    Comparison(l.evidenceId, r.evidenceId, PairDimension(l, r), PairOutcome(l, r, cal))
  }

  /** How a comparison is counted. */
  datatype Kind = MATCHES | MISMATCHES | INSUFFICIENT

  function KindOf(o: Outcome): Kind {
    match o
    case MISMATCH => MISMATCHES
    case VALIDITY_CONFLICT => MISMATCHES
    case INSUFFICIENT_EVIDENCE => INSUFFICIENT
    case _ => MATCHES
  }

  /** Equal identifiers that are no texts, as 12345 and 12345.0, match whatever their
      normal forms. */
  predicate Excused(l: Observation, r: Observation) {
    l.dimension == Some(IDENTIFIER) && EqualOriginals(l, r)
  }

  /** Two available observations mismatch exactly when they are comparable, their
      normal forms differ and they are not equal identifiers, whatever the evaluation
      date; and the verdict does not depend on which is left. */
  lemma MismatchIffNormalFormsDiffer(l: Observation, r: Observation, cal: Calendar, normalize: Normalizer)
    requires l.status == AVAILABLE == r.status && l.evidenceId != r.evidenceId
    requires Extracted(l, normalize) && Extracted(r, normalize)
    ensures KindOf(PairOutcome(l, r, cal)) == MISMATCHES
            <==> AreComparable(l, r) && l.normalized != r.normalized && !Excused(l, r)
    ensures KindOf(PairOutcome(l, r, cal)) == MATCHES
            <==> AreComparable(l, r) && (l.normalized == r.normalized || Excused(l, r))
    ensures PairOutcome(l, r, cal) == PairOutcome(r, l, cal)
  {
    hide DateFamily, CompatibleTypes, DateCompatible, IdentifierCompatible;
    ComparabilityIsPartialEquivalence(l, r, l);
    ComparabilityIsPartialEquivalence(r, l, r);
  }

  /** For texts the excuse never matters: equal texts have equal normal forms. */
  lemma TextsNeedNoExcuse(l: Observation, r: Observation, normalize: Normalizer)
    requires l.status == AVAILABLE == r.status && l.dimension == r.dimension
    requires Extracted(l, normalize) && Extracted(r, normalize)
    requires l.original.Some? && l.original.value.Text?
    ensures Excused(l, r) ==> l.normalized == r.normalized
  {
  }

  // ----- enumerating pairs -----

  function Row(x: Observation, t: seq<Observation>): seq<(Observation, Observation)> {
    if t == [] then [] else [(x, t[0])] + Row(x, t[1..])
  }

  /** All pairs of positions i < j. */
  function AllPairs(s: seq<Observation>): seq<(Observation, Observation)> {
    if s == [] then [] else Row(s[0], s[1..]) + AllPairs(s[1..])
  }

  function PairKey(p: (Observation, Observation)): (string, string) {
    (p.0.evidenceId, p.1.evidenceId)
  }

  /** The pairs whose key is neither in `seen` nor earlier in the list. */
  function FirstSeen(ps: seq<(Observation, Observation)>, seen: set<(string, string)>)
    : seq<(Observation, Observation)>
  {
    if ps == [] then []
    else if PairKey(ps[0]) in seen then FirstSeen(ps[1..], seen)
    else [ps[0]] + FirstSeen(ps[1..], seen + {PairKey(ps[0])})
  }

  function Comparables(s: seq<Observation>): seq<Observation> {
    if s == [] then []
    else
      var before, o := Comparables(s[..|s| - 1]), s[|s| - 1];
      if o.status == AVAILABLE then before + [o] else before
  }

  method EnumeratePairs(observations: seq<Observation>) returns (pairs: seq<(Observation, Observation)>)
    ensures pairs == FirstSeen(AllPairs(Comparables(observations)), {})
  {
    hide FirstSeen, Row, AllPairs, Comparables;
    var c := Comparables(observations);
    ghost var all := FirstSeen(AllPairs(c), {});
    var seen: set<(string, string)> := {};
    pairs := [];
    assert c[0..] == c;
    for i := 0 to |c|
      invariant pairs + FirstSeen(AllPairs(c[i..]), seen) == all
    {
      ghost var later := AllPairs(c[i + 1..]);
      AllPairsStep(c, i);
      for j := i + 1 to |c|
        invariant pairs + FirstSeen(Row(c[i], c[j..]) + later, seen) == all
      {
        RowStep(c[i], c, j, later, seen);
        var key := (c[i].evidenceId, c[j].evidenceId);
        if key !in seen {
          Reassociate(pairs, (c[i], c[j]), FirstSeen(Row(c[i], c[j + 1..]) + later, seen + {key}));
          seen := seen + {key};
          pairs := pairs + [(c[i], c[j])];
        }
      }
      RowEnds(c[i], later);
      assert c[|c|..] == [];
    }
    AllPairsEnd(seen);
    assert c[|c|..] == [];
  }

  lemma Reassociate<T>(a: seq<T>, x: T, b: seq<T>)
    ensures a + ([x] + b) == (a + [x]) + b
  {
  }

  lemma AllPairsStep(c: seq<Observation>, i: nat)
    requires i < |c|
    ensures AllPairs(c[i..]) == Row(c[i], c[i + 1..]) + AllPairs(c[i + 1..])
  {
    assert c[i..][1..] == c[i + 1..];
  }

  lemma RowEnds(x: Observation, more: seq<(Observation, Observation)>)
    ensures Row(x, []) + more == more
  {
  }

  lemma AllPairsEnd(seen: set<(string, string)>)
    ensures FirstSeen(AllPairs([]), seen) == []
  {
  }

  lemma RowStep(x: Observation, c: seq<Observation>, j: nat, more: seq<(Observation, Observation)>,
                seen: set<(string, string)>)
    requires j < |c|
    ensures var rest := Row(x, c[j + 1..]) + more;
            FirstSeen(Row(x, c[j..]) + more, seen) ==
            if (x.evidenceId, c[j].evidenceId) in seen then FirstSeen(rest, seen)
            else [(x, c[j])] + FirstSeen(rest, seen + {(x.evidenceId, c[j].evidenceId)})
  {
    var rest := Row(x, c[j + 1..]) + more;
    assert c[j..][1..] == c[j + 1..];
    assert Row(x, c[j..]) + more == [(x, c[j])] + rest;
    FirstSeenCons((x, c[j]), rest, seen);
  }

  lemma FirstSeenCons(p: (Observation, Observation), ps: seq<(Observation, Observation)>, seen: set<(string, string)>)
    ensures FirstSeen([p] + ps, seen) ==
            if PairKey(p) in seen then FirstSeen(ps, seen) else [p] + FirstSeen(ps, seen + {PairKey(p)})
  {
    assert ([p] + ps)[1..] == ps;
  }

  ghost predicate DistinctIds(s: seq<Observation>) {
    forall i, j :: 0 <= i < j < |s| ==> s[i].evidenceId != s[j].evidenceId
  }

  ghost predicate FreshKeys(ps: seq<(Observation, Observation)>, seen: set<(string, string)>) {
    && (forall i :: 0 <= i < |ps| ==> PairKey(ps[i]) !in seen)
    && (forall i, j :: 0 <= i < j < |ps| ==> PairKey(ps[i]) != PairKey(ps[j]))
  }

  lemma {:induction false} FreshAllKept(ps: seq<(Observation, Observation)>, seen: set<(string, string)>)
    requires FreshKeys(ps, seen)
    ensures FirstSeen(ps, seen) == ps
  {
    if ps != [] {
      FreshAllKept(ps[1..], seen + {PairKey(ps[0])});
    }
  }

  lemma {:induction false} RowAt(x: Observation, t: seq<Observation>)
    ensures |Row(x, t)| == |t| && forall i :: 0 <= i < |t| ==> Row(x, t)[i] == (x, t[i])
  {
    if t != [] {
      RowAt(x, t[1..]);
    }
  }

  lemma {:induction false} PairsFromList(s: seq<Observation>)
    ensures forall p :: p in AllPairs(s) ==> p.0 in s && p.1 in s
  {
    if s != [] {
      PairsFromList(s[1..]);
      RowAt(s[0], s[1..]);
    }
  }

  lemma {:induction false} DistinctKeys(s: seq<Observation>)
    requires DistinctIds(s)
    ensures FreshKeys(AllPairs(s), {})
  {
    if s != [] {
      DistinctKeys(s[1..]);
      RowAt(s[0], s[1..]);
      PairsFromList(s[1..]);
      var row, rest := Row(s[0], s[1..]), AllPairs(s[1..]);
      forall i, j | 0 <= i < j < |row + rest| ensures PairKey((row + rest)[i]) != PairKey((row + rest)[j]) {
        if i < |row| && j >= |row| {
          assert rest[j - |row|] in rest;
        }
      }
    }
  }

  /** With distinct evidence ids nothing is skipped: the pairs are all i < j. */
  lemma EveryPairEnumerated(observations: seq<Observation>)
    requires DistinctIds(Comparables(observations))
    ensures FirstSeen(AllPairs(Comparables(observations)), {}) == AllPairs(Comparables(observations))
  {
    DistinctKeys(Comparables(observations));
    FreshAllKept(AllPairs(Comparables(observations)), {});
  }

  // ----- counting -----

  type Relation = (Observation, Observation) -> bool

  function CountRow(x: Observation, t: seq<Observation>, rel: Relation): nat {
    if t == [] then 0 else (if rel(x, t[0]) then 1 else 0) + CountRow(x, t[1..], rel)
  }

  /** How many pairs i < j stand in `rel`. */
  function CountPairs(s: seq<Observation>, rel: Relation): nat {
    if s == [] then 0 else CountRow(s[0], s[1..], rel) + CountPairs(s[1..], rel)
  }

  function CountComparisons(cs: seq<Comparison>, d: Dimension, k: Kind): nat {
    if cs == [] then 0
    else (if cs[0].dimension == d && KindOf(cs[0].outcome) == k then 1 else 0) + CountComparisons(cs[1..], d, k)
  }

  datatype Summary = Summary(dimension: Dimension, total: nat, matches: nat, mismatches: nat, insufficient: nat)

  function Summarize(cs: seq<Comparison>, d: Dimension): Summary {
    var a, b, c := CountComparisons(cs, d, MATCHES), CountComparisons(cs, d, MISMATCHES),
        CountComparisons(cs, d, INSUFFICIENT);
    Summary(d, a + b + c, a, b, c)
  }

  const DIMENSIONS := [IDENTIFIER, ADDRESS, DATE, PRODUCT, MANUFACTURER]

  /** The comparisons of one kind, in order. */
  function Select(cs: seq<Comparison>, k: Kind): seq<Comparison> {
    if cs == [] then []
    else
      var before, c := Select(cs[..|cs| - 1], k), cs[|cs| - 1];
      if KindOf(c.outcome) == k then before + [c] else before
  }

  /** Selecting keeps order and occurrences. */
  lemma {:induction false} SelectConcat(a: seq<Comparison>, b: seq<Comparison>, k: Kind)
    ensures Select(a + b, k) == Select(a, k) + Select(b, k)
  {
    hide KindOf;
    if b == [] {
      assert a + b == a;
    } else {
      assert (a + b)[..|a + b| - 1] == a + b[..|b| - 1];
      SelectConcat(a, b[..|b| - 1], k);
    }
  }

  /** A comparison is a mismatch by outcome MISMATCH or VALIDITY_CONFLICT. */
  lemma SelectOne(c: Comparison)
    ensures Select([c], MISMATCHES) == if c.outcome == MISMATCH || c.outcome == VALIDITY_CONFLICT then [c] else []
    ensures Select([c], INSUFFICIENT) == if c.outcome == INSUFFICIENT_EVIDENCE then [c] else []
  {
    assert [c][..0] == [];
  }

  datatype Aggregation = Aggregation(
    comparisons: seq<Comparison>,
    summaries: seq<Summary>,
    mismatching: seq<Comparison>,
    insufficient: seq<Comparison>
  )

  /** One summary per dimension and the mismatching and insufficient comparisons.
      Together the totals account for every comparison, and the summary counts for
      the two selections. */
  method Aggregate(cs: seq<Comparison>) returns (a: Aggregation)
    ensures a.comparisons == cs && |a.summaries| == |DIMENSIONS|
    ensures forall i :: 0 <= i < |DIMENSIONS| ==> a.summaries[i] == Summarize(cs, DIMENSIONS[i])
    ensures a.mismatching == Select(cs, MISMATCHES) && a.insufficient == Select(cs, INSUFFICIENT)
    ensures var s := a.summaries;
            && |cs| == s[0].total + s[1].total + s[2].total + s[3].total + s[4].total
            && |a.mismatching| == s[0].mismatches + s[1].mismatches + s[2].mismatches + s[3].mismatches
               + s[4].mismatches
            && |a.insufficient| == s[0].insufficient + s[1].insufficient + s[2].insufficient + s[3].insufficient
               + s[4].insufficient
  {
    hide Summarize;
    var summaries: seq<Summary> := [];
    for i := 0 to |DIMENSIONS|
      invariant |summaries| == i
      invariant forall j :: 0 <= j < i ==> summaries[j] == Summarize(cs, DIMENSIONS[j])
    {
      summaries := summaries + [Summarize(cs, DIMENSIONS[i])];
    }
    TotalsExhaust(cs);
    SelectedCounts(cs, MISMATCHES);
    SelectedCounts(cs, INSUFFICIENT);
    SummaryCounts(cs);
    a := Aggregation(cs, summaries, Select(cs, MISMATCHES), Select(cs, INSUFFICIENT));
  }

  lemma SummaryCounts(cs: seq<Comparison>)
    ensures forall d :: Summarize(cs, d).mismatches == CountComparisons(cs, d, MISMATCHES)
    ensures forall d :: Summarize(cs, d).insufficient == CountComparisons(cs, d, INSUFFICIENT)
  {
  }

  lemma {:induction false} SelectedCounts(cs: seq<Comparison>, k: Kind)
    ensures |Select(cs, k)| ==
            CountComparisons(cs, IDENTIFIER, k) + CountComparisons(cs, ADDRESS, k) + CountComparisons(cs, DATE, k)
                               + CountComparisons(cs, PRODUCT, k) + CountComparisons(cs, MANUFACTURER, k)
  {
    hide KindOf;
    if cs != [] {
      var init, c := cs[..|cs| - 1], cs[|cs| - 1];
      SelectedCounts(init, k);
      assert cs == init + [c];
      forall d ensures CountComparisons(cs, d, k) ==
          CountComparisons(init, d, k) + (if c.dimension == d && KindOf(c.outcome) == k then 1 else 0) {
        CountConcat(init, [c], d, k);
      }
    }
  }

  lemma {:induction false} TotalsExhaust(cs: seq<Comparison>)
    ensures |cs| == Summarize(cs, IDENTIFIER).total + Summarize(cs, ADDRESS).total + Summarize(cs, DATE).total
                    + Summarize(cs, PRODUCT).total + Summarize(cs, MANUFACTURER).total
  {
    if cs != [] {
      TotalsExhaust(cs[1..]);
      hide KindOf;
    }
  }

  function CompareEach(ps: seq<(Observation, Observation)>, cal: Calendar): seq<Comparison> {
    if ps == [] then [] else [ComparePair(ps[0].0, ps[0].1, cal)] + CompareEach(ps[1..], cal)
  }

  method CompareAll(observations: seq<Observation>, cal: Calendar) returns (cs: seq<Comparison>)
    ensures cs == CompareEach(FirstSeen(AllPairs(Comparables(observations)), {}), cal)
  {
    var pairs := EnumeratePairs(observations);
    cs := CompareEach(pairs, cal);
  }

  /** The pairs whose comparison counts as `k`, in dimension `d` or in any. */
  function Counted(d: Option<Dimension>, k: Kind, cal: Calendar): Relation {
    (l: Observation, r: Observation) => (d.None? || PairDimension(l, r) == d.value)
        && KindOf(PairOutcome(l, r, cal)) == k
  }

  lemma {:induction false} CountConcat(a: seq<Comparison>, b: seq<Comparison>, d: Dimension, k: Kind)
    ensures CountComparisons(a + b, d, k) == CountComparisons(a, d, k) + CountComparisons(b, d, k)
  {
    if a == [] {
      assert a + b == b;
    } else {
      assert (a + b)[1..] == a[1..] + b;
      CountConcat(a[1..], b, d, k);
    }
  }

  lemma {:induction false} CompareConcat(a: seq<(Observation, Observation)>, b: seq<(Observation, Observation)>,
                                         cal: Calendar)
    ensures CompareEach(a + b, cal) == CompareEach(a, cal) + CompareEach(b, cal)
  {
    if a == [] {
      assert a + b == b;
    } else {
      assert (a + b)[1..] == a[1..] + b;
      CompareConcat(a[1..], b, cal);
    }
  }

  lemma {:induction false} CountOfRow(x: Observation, t: seq<Observation>, d: Dimension, k: Kind, cal: Calendar)
    ensures CountComparisons(CompareEach(Row(x, t), cal), d, k) == CountRow(x, t, Counted(Some(d), k, cal))
  {
    hide PairOutcome, PairDimension;
    if t != [] {
      CountOfRow(x, t[1..], d, k, cal);
      assert ([(x, t[0])] + Row(x, t[1..]))[1..] == Row(x, t[1..]);
      var rest := CompareEach(Row(x, t[1..]), cal);
      assert ([ComparePair(x, t[0], cal)] + rest)[1..] == rest;
    }
  }

  /** The summary counts are counts of pairs. */
  lemma {:induction false} CountOfPairs(s: seq<Observation>, d: Dimension, k: Kind, cal: Calendar)
    ensures CountComparisons(CompareEach(AllPairs(s), cal), d, k) == CountPairs(s, Counted(Some(d), k, cal))
  {
    if s != [] {
      CountOfPairs(s[1..], d, k, cal);
      CountOfRow(s[0], s[1..], d, k, cal);
      CompareConcat(Row(s[0], s[1..]), AllPairs(s[1..]), cal);
      CountConcat(CompareEach(Row(s[0], s[1..]), cal), CompareEach(AllPairs(s[1..]), cal), d, k);
    }
  }

  // ----- order of the evidence -----

  ghost predicate SymmetricOn(s: seq<Observation>, rel: Relation) {
    forall a, b :: a in s && b in s ==> rel(a, b) == rel(b, a)
  }

  lemma {:induction false} CountRowConcat(x: Observation, a: seq<Observation>, b: seq<Observation>, rel: Relation)
    ensures CountRow(x, a + b, rel) == CountRow(x, a, rel) + CountRow(x, b, rel)
  {
    if a == [] {
      assert a + b == b;
    } else {
      assert (a + b)[1..] == a[1..] + b;
      CountRowConcat(x, a[1..], b, rel);
    }
  }

  lemma CountRowInsert(x: Observation, a: seq<Observation>, y: Observation, b: seq<Observation>, rel: Relation)
    ensures CountRow(x, a + ([y] + b), rel) == CountRow(x, a + b, rel) + (if rel(x, y) then 1 else 0)
  {
    CountRowConcat(x, a, [y] + b, rel);
    CountRowConcat(x, a, b, rel);
    assert ([y] + b)[1..] == b;
  }

  /** Moving one observation to the front keeps the count of a symmetric relation. */
  lemma {:induction false} MoveToFront(a: seq<Observation>, x: Observation, b: seq<Observation>, rel: Relation)
    requires SymmetricOn(a + ([x] + b), rel)
    ensures CountPairs(a + ([x] + b), rel) == CountRow(x, a + b, rel) + CountPairs(a + b, rel)
  {
    if a == [] {
      assert a + ([x] + b) == [x] + b && a + b == b && ([x] + b)[1..] == b;
    } else {
      var y, rest := a[0], a[1..];
      assert (a + ([x] + b))[1..] == rest + ([x] + b) && (a + b)[1..] == rest + b;
      assert forall z :: z in rest + ([x] + b) ==> z in a + ([x] + b);
      MoveToFront(rest, x, b, rel);
      CountRowInsert(y, rest, x, b, rel);
      assert y in a + ([x] + b) && x in a + ([x] + b);
    }
  }

  lemma {:induction false} CountRowPermuted(x: Observation, s: seq<Observation>, t: seq<Observation>, rel: Relation)
    requires multiset(s) == multiset(t)
    ensures CountRow(x, s, rel) == CountRow(x, t, rel)
  {
    if s == [] {
      InMultiset(s, t);
    } else {
      var i := PickOut(s, t);
      CountRowPermuted(x, s[1..], t[..i] + t[i + 1..], rel);
      assert t == t[..i] + ([s[0]] + t[i + 1..]);
      CountRowInsert(x, t[..i], s[0], t[i + 1..], rel);
    }
  }

  lemma {:induction false} CountPermuted(s: seq<Observation>, t: seq<Observation>, rel: Relation)
    requires multiset(s) == multiset(t) && SymmetricOn(s, rel)
    ensures CountPairs(s, rel) == CountPairs(t, rel)
  {
    InMultiset(s, t);
    if s != [] {
      var i := PickOut(s, t);
      var l, r := t[..i], t[i + 1..];
      assert t == l + ([s[0]] + r);
      assert SymmetricOn(s[1..], rel);
      CountPermuted(s[1..], l + r, rel);
      MoveToFront(l, s[0], r, rel);
      CountRowPermuted(s[0], s[1..], l + r, rel);
    }
  }

  /** Available observations with distinct ids, as extraction delivers them. */
  ghost predicate Sound(s: seq<Observation>, normalize: Normalizer) {
    DistinctIds(s) && forall o :: o in s ==> o.status == AVAILABLE && Extracted(o, normalize)
  }

  lemma SamePosition(s: seq<Observation>, a: Observation, b: Observation)
    requires DistinctIds(s) && a in s && b in s && a.evidenceId == b.evidenceId
    ensures a == b
  {
    var i :| 0 <= i < |s| && s[i] == a;
    var j :| 0 <= j < |s| && s[j] == b;
  }

  /** Mismatch and match counts of every dimension, and the overall count of every
      kind, do not depend on the order of the observations. */
  lemma CountsIgnoreOrder(s: seq<Observation>, t: seq<Observation>, d: Option<Dimension>, k: Kind, cal: Calendar,
                          normalize: Normalizer)
    requires multiset(s) == multiset(t) && Sound(s, normalize)
    requires k != INSUFFICIENT || d.None? || forall a, b :: a in s && b in s ==> a.dimension == b.dimension
    ensures CountPairs(s, Counted(d, k, cal)) == CountPairs(t, Counted(d, k, cal))
  {
    hide PairOutcome, PairDimension;
    forall a, b | a in s && b in s ensures Counted(d, k, cal)(a, b) == Counted(d, k, cal)(b, a) {
      OutcomesSymmetric(s, a, b, cal, normalize);
      OutcomesSymmetric(s, b, a, cal, normalize);
    }
    CountPermuted(s, t, Counted(d, k, cal));
  }

  lemma OutcomesSymmetric(s: seq<Observation>, a: Observation, b: Observation, cal: Calendar, normalize: Normalizer)
    requires Sound(s, normalize) && a in s && b in s
    ensures PairOutcome(a, b, cal) == PairOutcome(b, a, cal)
    ensures PairOutcome(a, b, cal) != INSUFFICIENT_EVIDENCE ==> a.dimension == b.dimension
    ensures a.dimension.Some? && PairDimension(a, b) == a.dimension.value
  {
    hide DateFamily, CompatibleTypes, DateCompatible, IdentifierCompatible;
    if a.evidenceId == b.evidenceId {
      SamePosition(s, a, b);
    } else {
      MismatchIffNormalFormsDiffer(a, b, cal, normalize);
    }
  }

  lemma {:induction false} CountsAgree(s: seq<Observation>, rel: Relation, rel': Relation)
    requires forall a, b :: a in s && b in s ==> rel(a, b) ==> rel'(a, b)
    ensures CountPairs(s, rel) <= CountPairs(s, rel')
  {
    if s != [] {
      CountsAgree(s[1..], rel, rel');
      CountRowAgrees(s[0], s[1..], rel, rel');
    }
  }

  lemma {:induction false} CountRowAgrees(x: Observation, t: seq<Observation>, rel: Relation, rel': Relation)
    requires forall b :: b in t ==> rel(x, b) ==> rel'(x, b)
    ensures CountRow(x, t, rel) <= CountRow(x, t, rel')
  {
    if t != [] {
      CountRowAgrees(x, t[1..], rel, rel');
    }
  }

  lemma FrontSwap(x: Observation, y: Observation, rest: seq<Observation>, rel: Relation)
    ensures CountPairs([x, y] + rest, rel) ==
            (if rel(x, y) then 1 else 0) + CountRow(x, rest, rel) + CountRow(y, rest, rel) + CountPairs(rest, rel)
  {
    assert ([x, y] + rest)[1..] == [y] + rest && ([y] + rest)[1..] == rest;
  }

  /** The per-dimension count of insufficient comparisons, on the other hand, is
      charged to the left observation: it survives every reordering exactly when
      all observations share one dimension. */
  lemma InsufficientCountsNeedOneDimension(s: seq<Observation>, cal: Calendar, normalize: Normalizer)
    requires Sound(s, normalize)
    ensures (forall t, d :: multiset(t) == multiset(s) ==>
               CountPairs(t, Counted(Some(d), INSUFFICIENT, cal)) == CountPairs(s, Counted(Some(d), INSUFFICIENT, cal)))
            <==> (forall a, b :: a in s && b in s ==> a.dimension == b.dimension)
  {
    if x, y :| x in s && y in s && x.dimension != y.dimension {
      var t, u, d := SwapShows(s, x, y, cal, normalize);
    } else {
      forall t, d | multiset(t) == multiset(s)
        ensures CountPairs(t, Counted(Some(d), INSUFFICIENT, cal)) == CountPairs(s, Counted(Some(d), INSUFFICIENT, cal))
      {
        CountsIgnoreOrder(s, t, Some(d), INSUFFICIENT, cal, normalize);
      }
    }
  }

  lemma BringForward(s: seq<Observation>, x: Observation) returns (rest: seq<Observation>)
    requires x in s
    ensures multiset(s) == multiset{x} + multiset(rest)
    ensures forall y :: y in s && y != x ==> y in rest
  {
    var i :| 0 <= i < |s| && s[i] == x;
    var l, r := s[..i], s[i + 1..];
    rest := l + r;
    assert s == l + ([x] + r);
    assert multiset(l + ([x] + r)) == multiset(l) + (multiset{x} + multiset(r));
  }

  lemma BringTwoForward(s: seq<Observation>, x: Observation, y: Observation) returns (rest: seq<Observation>)
    requires x in s && y in s && x != y
    ensures multiset([x, y] + rest) == multiset(s) == multiset([y, x] + rest)
  {
    var most := BringForward(s, x);
    rest := BringForward(most, y);
    assert multiset([x, y]) == multiset{x} + multiset{y} == multiset([y, x]);
  }

  lemma SwapShows(s: seq<Observation>, x: Observation, y: Observation, cal: Calendar, normalize: Normalizer)
    returns (t: seq<Observation>, u: seq<Observation>, d: Dimension)
    requires Sound(s, normalize) && x in s && y in s && x.dimension != y.dimension
    ensures multiset(t) == multiset(s) == multiset(u)
    ensures CountPairs(t, Counted(Some(d), INSUFFICIENT, cal)) == CountPairs(u, Counted(Some(d), INSUFFICIENT, cal)) + 1
  {
    var rest := BringTwoForward(s, x, y);
    d := x.dimension.value;
    t, u := [x, y] + rest, [y, x] + rest;
    hide PairOutcome, PairDimension;
    OutcomesSymmetric(s, x, y, cal, normalize);
    OutcomesSymmetric(s, y, x, cal, normalize);
    FrontSwap(x, y, rest, Counted(Some(d), INSUFFICIENT, cal));
    FrontSwap(y, x, rest, Counted(Some(d), INSUFFICIENT, cal));
  }

  // ----- one mismatch is never alone -----

  function CountIn(s: seq<Observation>, x: Observation): nat {
    if s == [] then 0 else (if AreComparable(x, s[0]) then 1 else 0) + CountIn(s[1..], x)
  }

  /** Both in the class of `x`, with different normal forms. */
  function Differ(x: Observation): Relation {
    (l: Observation, r: Observation) => AreComparable(x, l) && AreComparable(x, r) && l.normalized != r.normalized
  }

  ghost predicate Uniform(s: seq<Observation>, x: Observation, n: Option<string>) {
    forall o :: o in s && AreComparable(x, o) ==> o.normalized == n
  }

  lemma {:induction false} UniformRow(y: Observation, t: seq<Observation>, x: Observation, n: Option<string>)
    requires AreComparable(x, y) && y.normalized != n && Uniform(t, x, n)
    ensures CountRow(y, t, Differ(x)) == CountIn(t, x)
  {
    hide AreComparable;
    if t != [] {
      assert t[0] in t;
      UniformRow(y, t[1..], x, n);
    }
  }

  lemma {:induction false} RowFinds(y: Observation, t: seq<Observation>, o: Observation, rel: Relation)
    requires o in t && rel(y, o)
    ensures CountRow(y, t, rel) >= 1
  {
    if t[0] != o {
      RowFinds(y, t[1..], o, rel);
    }
  }

  /** A class of m observations that does not agree on one normal form has at
      least m - 1 differing pairs. */
  lemma {:induction false} MixedClass(s: seq<Observation>, x: Observation, a: Observation, b: Observation)
    requires a in s && b in s && AreComparable(x, a) && AreComparable(x, b) && a.normalized != b.normalized
    ensures CountPairs(s, Differ(x)) >= CountIn(s, x) - 1
  {
    hide AreComparable;
    var y, t := s[0], s[1..];
    assert forall o :: o in s <==> o == y || o in t;
    if c, d :| c in t && d in t && AreComparable(x, c) && AreComparable(x, d) && c.normalized != d.normalized {
      MixedClass(t, x, c, d);
      if AreComparable(x, y) {
        RowFinds(y, t, if c.normalized != y.normalized then c else d, Differ(x));
      }
    } else {
      var other := if a == y then b else a;
      assert other in t && AreComparable(x, y) && y.normalized != other.normalized;
      UniformRow(y, t, x, other.normalized);
    }
  }

  function Mismatch(cal: Calendar): Relation {
    (l: Observation, r: Observation) => KindOf(PairOutcome(l, r, cal)) == MISMATCHES
  }

  /** In the class of the left one, which mismatches neither it nor `b`. */
  function Bridging(b: Observation, cal: Calendar): Relation {
    (a: Observation, c: Observation) => AreComparable(a, c) && !Mismatch(cal)(a, c) && !Mismatch(cal)(b, c)
  }

  /** How many observations of the class of `a` mismatch neither `a` nor `b`. */
  function Bridges(s: seq<Observation>, a: Observation, b: Observation, cal: Calendar): nat {
    CountRow(a, s, Bridging(b, cal))
  }

  function SameClass(): Relation {
    (a: Observation, c: Observation) => AreComparable(a, c)
  }

  lemma {:induction false} CountInIsRow(s: seq<Observation>, a: Observation)
    ensures CountIn(s, a) == CountRow(a, s, SameClass())
  {
    hide AreComparable;
    if s != [] {
      CountInIsRow(s[1..], a);
    }
  }

  /** Each of the class mismatches `a` or `b`, or is a bridge. */
  lemma {:induction false} RowsCover(t: seq<Observation>, a: Observation, b: Observation, cal: Calendar)
    ensures CountRow(a, t, Mismatch(cal)) + CountRow(b, t, Mismatch(cal)) + Bridges(t, a, b, cal) >= CountIn(t, a)
  {
    hide AreComparable, PairOutcome;
    if t != [] {
      RowsCover(t[1..], a, b, cal);
    }
  }

  lemma RowOfTwo(x: Observation, a: Observation, b: Observation, rest: seq<Observation>, rel: Relation)
    ensures CountRow(x, [a, b] + rest, rel) ==
            (if rel(x, a) then 1 else 0) + (if rel(x, b) then 1 else 0) + CountRow(x, rest, rel)
  {
    assert ([a, b] + rest)[1..] == [b] + rest && ([b] + rest)[1..] == rest;
  }

  /** With `a` and `b` in front, the class is `a`, perhaps `b`, and those of the rest. */
  lemma ClassOfTwo(s: seq<Observation>, a: Observation, b: Observation, rest: seq<Observation>, cal: Calendar)
    requires multiset([a, b] + rest) == multiset(s)
    ensures CountIn(s, a) <= 2 + CountIn(rest, a)
    ensures Bridges(s, a, b, cal) >= Bridges(rest, a, b, cal)
  {
    hide AreComparable, Mismatch;
    CountInIsRow(s, a);
    CountInIsRow(rest, a);
    CountRowPermuted(a, s, [a, b] + rest, SameClass());
    CountRowPermuted(a, s, [a, b] + rest, Bridging(b, cal));
    RowOfTwo(a, a, b, rest, SameClass());
    RowOfTwo(a, a, b, rest, Bridging(b, cal));
  }

  /** One mismatch forces, in its dimension, at least m - 1 mismatches less the bridges,
      where m counts the observations comparable with it. */
  lemma MismatchesSpread(s: seq<Observation>, a: Observation, b: Observation, cal: Calendar, normalize: Normalizer)
    requires Sound(s, normalize) && a in s && b in s && KindOf(PairOutcome(a, b, cal)) == MISMATCHES
    ensures a.dimension.Some?
    ensures CountPairs(s, Counted(a.dimension, MISMATCHES, cal)) + Bridges(s, a, b, cal) >= CountIn(s, a) - 1
  {
    hide PairOutcome, PairDimension, AreComparable;
    OutcomesSymmetric(s, a, b, cal, normalize);
    SelfInsufficient(a, cal);
    var rest := BringTwoForward(s, a, b);
    var rel := Counted(a.dimension, MISMATCHES, cal);
    var t := [a, b] + rest;
    CountsIgnoreOrder(s, t, a.dimension, MISMATCHES, cal, normalize);
    InMultiset(t, s);
    FrontSwap(a, b, rest, rel);
    forall c | c in rest ensures (Mismatch(cal)(a, c) ==> rel(a, c)) && (Mismatch(cal)(b, c) ==> rel(b, c)) {
      assert c in t;
      OutcomesSymmetric(s, a, c, cal, normalize);
      OutcomesSymmetric(s, b, c, cal, normalize);
    }
    CountRowAgrees(a, rest, Mismatch(cal), rel);
    CountRowAgrees(b, rest, Mismatch(cal), rel);
    RowsCover(rest, a, b, cal);
    ClassOfTwo(s, a, b, rest, cal);
  }

  lemma SelfInsufficient(a: Observation, cal: Calendar)
    ensures PairOutcome(a, a, cal) == INSUFFICIENT_EVIDENCE
  {
  }

  /** In the class of `a`, equal identifiers have equal normal forms. */
  ghost predicate Coherent(s: seq<Observation>, a: Observation) {
    forall l, r :: l in s && r in s && AreComparable(a, l) && AreComparable(a, r) && Excused(l, r) ==>
      l.normalized == r.normalized
  }

  /** A class of texts is coherent, for one. */
  lemma TextsAreCoherent(s: seq<Observation>, a: Observation, normalize: Normalizer)
    requires Sound(s, normalize)
    requires forall o :: o in s && AreComparable(a, o) ==> o.original.Some? && o.original.value.Text?
    ensures Coherent(s, a)
  {
    forall l, r | l in s && r in s && AreComparable(a, l) && AreComparable(a, r) && Excused(l, r)
      ensures l.normalized == r.normalized
    {
      TextsNeedNoExcuse(l, r, normalize);
    }
  }

  /** A coherent class has no bridges, so one mismatch forces m - 1. */
  lemma CoherentSpread(s: seq<Observation>, a: Observation, b: Observation, cal: Calendar, normalize: Normalizer)
    requires Sound(s, normalize) && a in s && b in s && KindOf(PairOutcome(a, b, cal)) == MISMATCHES
    requires Coherent(s, a)
    ensures a.dimension.Some? && CountPairs(s, Counted(a.dimension, MISMATCHES, cal)) >= CountIn(s, a) - 1
  {
    hide PairOutcome, PairDimension;
    MismatchesSpread(s, a, b, cal, normalize);
    NoBridges(s, s, a, b, cal, normalize);
  }

  lemma {:induction false} NoBridges(s: seq<Observation>, t: seq<Observation>, a: Observation, b: Observation,
                                     cal: Calendar,
                                     normalize: Normalizer)
    requires Sound(s, normalize) && a in s && b in s && KindOf(PairOutcome(a, b, cal)) == MISMATCHES
    requires Coherent(s, a) && forall o :: o in t ==> o in s
    ensures Bridges(t, a, b, cal) == 0
  {
    hide PairOutcome, Coherent, Sound;
    if t != [] {
      NoBridges(s, t[1..], a, b, cal, normalize);
      assert t[0] in t;
      if AreComparable(a, t[0]) {
        NotABridge(s, a, b, t[0], cal, normalize);
      }
    }
  }

  lemma NotABridge(s: seq<Observation>, a: Observation, b: Observation, c: Observation, cal: Calendar,
                   normalize: Normalizer)
    requires Sound(s, normalize) && a in s && b in s && c in s && KindOf(PairOutcome(a, b, cal)) == MISMATCHES
    requires Coherent(s, a) && AreComparable(a, c)
    ensures Mismatch(cal)(a, c) || Mismatch(cal)(b, c)
  {
    hide PairOutcome, AreComparable, Excused, Sound;
    SelfInsufficient(a, cal);
    ClassVerdict(s, a, b, cal, normalize);
    ComparabilityIsPartialEquivalence(a, b, a);
    ComparabilityIsPartialEquivalence(b, a, c);
    if a.normalized != c.normalized {
      ClassVerdict(s, a, c, cal, normalize);
    } else {
      ClassVerdict(s, b, c, cal, normalize);
    }
  }

  lemma ClassVerdict(s: seq<Observation>, l: Observation, r: Observation, cal: Calendar, normalize: Normalizer)
    requires Sound(s, normalize) && l in s && r in s && l != r
    ensures Mismatch(cal)(l, r) <==> AreComparable(l, r) && l.normalized != r.normalized && !Excused(l, r)
  {
    hide PairOutcome, AreComparable, Excused, Extracted;
    if l.evidenceId == r.evidenceId {
      SamePosition(s, l, r);
    }
    MismatchIffNormalFormsDiffer(l, r, cal, normalize);
  }

  /** One audit number, as given by the evidence `id`. */
  function AuditNumber(id: string, v: Value): Evidence {
    Evidence(id, "bidder", "BS", "ca_udin", Some(v))
  }

  /** Bridges do occur: the text 12345, the number 12345.0 and two numbers 12345 make a
      class of four with a single mismatch. */
  lemma NumbersBridge(cal: Calendar)
    ensures var normalize: Normalizer := (d: Dimension, t: string) => Some(t);
            var number, decimal := Other(Some(12345), "12345", false, None), Other(Some(12345), "12345.0", false, None);
            var a, b := Extract(AuditNumber("a", Text("12345")), normalize),
                Extract(AuditNumber("b", decimal), normalize);
            var c, d := Extract(AuditNumber("c", number), normalize), Extract(AuditNumber("d", number), normalize);
            var s := [a, b, c, d];
            && Sound(s, normalize) && KindOf(PairOutcome(a, b, cal)) == MISMATCHES
            && CountIn(s, a) == 4 && Bridges(s, a, b, cal) == 2
            && CountPairs(s, Counted(Some(IDENTIFIER), MISMATCHES, cal)) == 1
  {
    var number, decimal := Other(Some(12345), "12345", false, None), Other(Some(12345), "12345.0", false, None);
    var a, b := AuditObservation("a", Text("12345"), "12345"), AuditObservation("b", decimal, "12345.0");
    var c, d := AuditObservation("c", number, "12345"), AuditObservation("d", number, "12345");
    FourPairs(a, b, c, d, Counted(Some(IDENTIFIER), MISMATCHES, cal));
    assert "12345" != "12345.0";
    AuditOutcomes(a, b, cal);
    AuditOutcomes(b, a, cal);
    AuditOutcomes(a, c, cal);
    AuditOutcomes(a, d, cal);
    AuditOutcomes(b, c, cal);
    AuditOutcomes(b, d, cal);
    AuditOutcomes(c, d, cal);
    AuditOutcomes(a, a, cal);
    hide PairOutcome, AreComparable, CountPairs, CountIn, Bridges;
    FourInClass(a, b, c, d, cal);
  }

  lemma AuditOutcomes(l: Observation, r: Observation, cal: Calendar)
    requires l.original.Some? && r.original.Some? && l.normalized.Some? && r.normalized.Some?
    requires l == AuditObservation(l.evidenceId, l.original.value, l.normalized.value)
    requires r == AuditObservation(r.evidenceId, r.original.value, r.normalized.value)
    ensures AreComparable(l, r) && PairDimension(l, r) == IDENTIFIER
    ensures KindOf(PairOutcome(l, r, cal)) == MISMATCHES <==>
            l.evidenceId != r.evidenceId && !Equal(l.original.value, r.original.value) && l.normalized != r.normalized
  {
    hide Equal;
  }

  /** The observation extracted from an audit number. */
  function AuditObservation(id: string, v: Value, normalized: string): Observation {
    Observation(id, "BS", "ca_udin", Some(v), Some(normalized), Some(IDENTIFIER), Some(UDIN), None, AVAILABLE)
  }

  lemma FourPairs(a: Observation, b: Observation, c: Observation, d: Observation, rel: Relation)
    ensures CountPairs([a, b, c, d], rel) ==
            (if rel(a, b) then 1 else 0) + (if rel(a, c) then 1 else 0) + (if rel(a, d) then 1 else 0)
            + (if rel(b, c) then 1 else 0) + (if rel(b, d) then 1 else 0) + (if rel(c, d) then 1 else 0)
  {
    FrontSwap(a, b, [c, d], rel);
    FrontSwap(c, d, [], rel);
    assert [a, b] + [c, d] == [a, b, c, d] && [c, d] + [] == [c, d];
    RowOfTwo(a, c, d, [], rel);
    RowOfTwo(b, c, d, [], rel);
  }

  lemma FourInClass(a: Observation, b: Observation, c: Observation, d: Observation, cal: Calendar)
    requires AreComparable(a, a) && AreComparable(a, b) && AreComparable(a, c) && AreComparable(a, d)
    requires Mismatch(cal)(a, b) && Mismatch(cal)(b, a)
    requires !Mismatch(cal)(a, c) && !Mismatch(cal)(b, c) && !Mismatch(cal)(a, d) && !Mismatch(cal)(b, d)
    ensures CountIn([a, b, c, d], a) == 4 && Bridges([a, b, c, d], a, b, cal) == 2
  {
    hide AreComparable, Mismatch;
    assert [a, b] + ([c, d] + []) == [a, b, c, d];
    CountInIsRow([a, b, c, d], a);
    RowOfTwo(a, a, b, [c, d] + [], SameClass());
    RowOfTwo(a, c, d, [], SameClass());
    RowOfTwo(a, a, b, [c, d] + [], Bridging(b, cal));
    RowOfTwo(a, c, d, [], Bridging(b, cal));
  }

  // ----- from evidence -----

  /** The observations of `bidder`'s evidence that take part in comparisons. */
  function Observe(evidence: seq<Evidence>, bidder: string, normalize: Normalizer): seq<Observation> {
    if evidence == [] then []
    else
      var o := Extract(evidence[0], normalize);
      (if evidence[0].bidderId == bidder && o.status == AVAILABLE then [o] else [])
          + Observe(evidence[1..], bidder, normalize)
  }

  ghost predicate DistinctEvidence(evidence: seq<Evidence>) {
    forall i, j :: 0 <= i < j < |evidence| ==> evidence[i].evidenceId != evidence[j].evidenceId
  }

  lemma {:induction false} ObserveConcat(a: seq<Evidence>, b: seq<Evidence>, bidder: string, normalize: Normalizer)
    ensures Observe(a + b, bidder, normalize) == Observe(a, bidder, normalize) + Observe(b, bidder, normalize)
  {
    hide Extract;
    if a == [] {
      assert a + b == b;
    } else {
      assert (a + b)[1..] == a[1..] + b;
      ObserveConcat(a[1..], b, bidder, normalize);
    }
  }

  lemma {:induction false} ObservePermuted(a: seq<Evidence>, b: seq<Evidence>, bidder: string, normalize: Normalizer)
    requires multiset(a) == multiset(b)
    ensures multiset(Observe(a, bidder, normalize)) == multiset(Observe(b, bidder, normalize))
  {
    hide Extract;
    if a == [] {
      InMultiset(a, b);
    } else {
      var i := PickOut(a, b);
      ObservePermuted(a[1..], b[..i] + b[i + 1..], bidder, normalize);
      ObserveConcat(b[..i], b[i + 1..], bidder, normalize);
      ObserveConcat(b[..i] + [a[0]], b[i + 1..], bidder, normalize);
      ObserveConcat(b[..i], [a[0]], bidder, normalize);
      ObserveConcat([a[0]], a[1..], bidder, normalize);
      assert a == [a[0]] + a[1..];
    }
  }

  lemma {:induction false} ObservedSound(evidence: seq<Evidence>, bidder: string, normalize: Normalizer)
    requires DistinctEvidence(evidence)
    ensures Sound(Observe(evidence, bidder, normalize), normalize)
    ensures forall o :: o in Observe(evidence, bidder, normalize) ==>
            exists e :: e in evidence && e.evidenceId == o.evidenceId
  {
    if evidence != [] {
      ObservedSound(evidence[1..], bidder, normalize);
      ExtractSound(evidence[0], normalize);
      hide Extract, Extracted;
      assert forall e :: e in evidence[1..] ==> e in evidence && e.evidenceId != evidence[0].evidenceId;
    }
  }

  lemma ExtractSound(e: Evidence, normalize: Normalizer)
    ensures Extracted(Extract(e, normalize), normalize)
    ensures Extract(e, normalize).evidenceId == e.evidenceId
  {
    hide ClassifyField;
  }

  /** Permuting evidence with distinct ids leaves each dimension's match and
      mismatch counts as they were. */
  lemma EvidenceOrderIrrelevant(a: seq<Evidence>, b: seq<Evidence>, bidder: string, d: Dimension, cal: Calendar,
                                normalize: Normalizer)
    requires multiset(a) == multiset(b)
    requires DistinctEvidence(a)
    ensures var s, t := Observe(a, bidder, normalize), Observe(b, bidder, normalize);
            && CountPairs(s, Counted(Some(d), MISMATCHES, cal)) == CountPairs(t, Counted(Some(d), MISMATCHES, cal))
            && CountPairs(s, Counted(Some(d), MATCHES, cal)) == CountPairs(t, Counted(Some(d), MATCHES, cal))
  {
    ObservedSound(a, bidder, normalize);
    ObservePermuted(a, b, bidder, normalize);
    CountsIgnoreOrder(Observe(a, bidder, normalize), Observe(b, bidder, normalize), Some(d), MISMATCHES, cal,
                      normalize);
    CountsIgnoreOrder(Observe(a, bidder, normalize), Observe(b, bidder, normalize), Some(d), MATCHES, cal, normalize);
  }

  lemma ComparablesSnoc(s: seq<Observation>, o: Observation)
    ensures Comparables(s + [o]) == if o.status == AVAILABLE then Comparables(s) + [o] else Comparables(s)
  {
    assert (s + [o])[..|s|] == s;
  }

  lemma ObserveStep(evidence: seq<Evidence>, i: nat, bidder: string, normalize: Normalizer)
    requires i < |evidence|
    ensures var o := Extract(evidence[i], normalize);
            var before := Observe(evidence[..i], bidder, normalize);
            Observe(evidence[..i + 1], bidder, normalize) ==
            if evidence[i].bidderId == bidder && o.status == AVAILABLE then before + [o] else before
  {
    hide Extract;
    assert evidence[..i + 1] == evidence[..i] + [evidence[i]];
    ObserveConcat(evidence[..i], [evidence[i]], bidder, normalize);
  }

  /** The observations of `bidder`'s evidence, in order. */
  function ExtractAll(evidence: seq<Evidence>, bidder: string, normalize: Normalizer): seq<Observation> {
    if evidence == [] then []
    else
      var before, e := ExtractAll(evidence[..|evidence| - 1], bidder, normalize), evidence[|evidence| - 1];
      if e.bidderId == bidder then before + [Extract(e, normalize)] else before
  }

  method ExtractObservations(evidence: seq<Evidence>, bidder: string, normalize: Normalizer)
    returns (observations: seq<Observation>)
    ensures observations == ExtractAll(evidence, bidder, normalize)
  {
    hide Extract;
    observations := [];
    for i := 0 to |evidence|
      invariant observations == ExtractAll(evidence[..i], bidder, normalize)
    {
      assert evidence[..i + 1][..i] == evidence[..i];
      if evidence[i].bidderId == bidder {
        observations := observations + [Extract(evidence[i], normalize)];
      }
    }
    assert evidence[..|evidence|] == evidence;
  }

  lemma {:induction false} ComparablesObserved(evidence: seq<Evidence>, bidder: string, normalize: Normalizer)
    ensures Comparables(ExtractAll(evidence, bidder, normalize)) == Observe(evidence, bidder, normalize)
  {
    hide Extract, Comparables;
    if evidence == [] {
      NothingComparable();
    } else {
      var i := |evidence| - 1;
      ComparablesObserved(evidence[..i], bidder, normalize);
      ObserveStep(evidence, i, bidder, normalize);
      hide Observe;
      ComparablesSnoc(ExtractAll(evidence[..i], bidder, normalize), Extract(evidence[i], normalize));
      assert evidence[..i + 1] == evidence;
    }
  }

  lemma NothingComparable()
    ensures Comparables([]) == []
  {
  }

  lemma {:induction false} ExtractedMembers(evidence: seq<Evidence>, bidder: string, normalize: Normalizer,
                                            o: Observation)
    ensures o in ExtractAll(evidence, bidder, normalize) <==>
            exists e :: e in evidence && e.bidderId == bidder && o == Extract(e, normalize)
  {
    hide Extract;
    if evidence != [] {
      var init, e := evidence[..|evidence| - 1], evidence[|evidence| - 1];
      ExtractedMembers(init, bidder, normalize, o);
      assert evidence == init + [e];
    }
  }

  /** One observation for each of the bidder's evidence items; those that can be
      compared are the ones the counts above are about. */
  lemma ExtractedAre(evidence: seq<Evidence>, bidder: string, normalize: Normalizer)
    ensures Comparables(ExtractAll(evidence, bidder, normalize)) == Observe(evidence, bidder, normalize)
    ensures ExtractAll(evidence, bidder, normalize) == [] <==> forall e :: e in evidence ==> e.bidderId != bidder
    ensures forall o :: o in ExtractAll(evidence, bidder, normalize) <==>
                        exists e :: e in evidence && e.bidderId == bidder && o == Extract(e, normalize)
  {
    ComparablesObserved(evidence, bidder, normalize);
    hide Extract, ExtractAll, Observe, Comparables;
    var all := ExtractAll(evidence, bidder, normalize);
    forall o ensures o in all <==> exists e :: e in evidence && e.bidderId == bidder && o == Extract(e, normalize) {
      ExtractedMembers(evidence, bidder, normalize, o);
    }
    if all == [] {
      assert forall e :: e in evidence && e.bidderId == bidder ==> Extract(e, normalize) in all;
    } else {
      assert all[0] in all;
    }
  }

  // ----- what a comparison says about two evidence items -----

  ghost predicate IdentifierField(documentType: string, fieldName: string) {
    || (fieldName == "gstin" && documentType in ["GST", "GSTN"])
    || (fieldName == "pan_number" && documentType in ["PAN", "PAN_INCOME_TAX"])
    || (fieldName == "udyam_registration_number" && documentType == "UDYAM")
    || (fieldName == "cin" && documentType in ["MCA", "MCA21"])
    || (fieldName == "ca_udin" && documentType == "BS")
  }

  ghost predicate AddressField(documentType: string, fieldName: string) {
    fieldName == "registered_address" && documentType in ["GST", "GSTN", "PAN", "UDYAM", "MCA21"]
  }

  ghost predicate DateField(documentType: string, fieldName: string) {
    documentType == "ITR" && fieldName in ["filing_date", "assessment_year", "financial_year"]
  }

  ghost predicate ProductField(documentType: string, fieldName: string) {
    || (fieldName == "product_description" && documentType in ["BIS", "BIS_CERTIFICATION", "PRODUCT"])
    || (fieldName == "supplier_class" && documentType == "MAKE_IN_INDIA")
  }

  ghost predicate ManufacturerField(documentType: string, fieldName: string) {
    fieldName == "manufacturer" && documentType in ["OEM", "OEM_AUTHORIZATION", "BIS", "BIS_CERTIFICATION"]
  }

  ghost predicate HasDimension(e: Evidence, d: Dimension) {
    match d
    case IDENTIFIER => IdentifierField(e.documentType, e.fieldName)
    case ADDRESS => AddressField(e.documentType, e.fieldName)
    case DATE => DateField(e.documentType, e.fieldName)
    case PRODUCT => ProductField(e.documentType, e.fieldName)
    case MANUFACTURER => ManufacturerField(e.documentType, e.fieldName)
  }

  /** Which field of which document has which dimension; a filing date alone has a
      known role. */
  lemma FieldsHaveDimensions(e: Evidence, normalize: Normalizer, d: Dimension)
    ensures Extract(e, normalize).dimension == Some(d) <==> HasDimension(e, d)
    ensures HasDimension(e, DATE) ==>
              Extract(e, normalize).role == Some(if e.fieldName == "filing_date" then FILING_DATE else UNKNOWN)
    ensures HasDimension(e, IDENTIFIER) ==> Extract(e, normalize).kind.Some?
  {
    FieldClass(e.documentType, e.fieldName);
    hide ClassifyField, IdentifierField, AddressField, DateField, ProductField, ManufacturerField;
  }

  lemma FieldClass(documentType: string, fieldName: string)
    ensures var spec := ClassifyField(documentType, fieldName);
            && (spec.Some? && spec.value.dimension == IDENTIFIER <==> IdentifierField(documentType, fieldName))
            && (spec.Some? && spec.value.dimension == ADDRESS <==> AddressField(documentType, fieldName))
            && (spec.Some? && spec.value.dimension == DATE <==> DateField(documentType, fieldName))
            && (spec.Some? && spec.value.dimension == PRODUCT <==> ProductField(documentType, fieldName))
            && (spec.Some? && spec.value.dimension == MANUFACTURER <==> ManufacturerField(documentType, fieldName))
            && (DateField(documentType, fieldName) ==>
                  spec.value.role == Some(if fieldName == "filing_date" then FILING_DATE else UNKNOWN))
            && (IdentifierField(documentType, fieldName) ==> spec.value.kind.Some?)
  {
    FieldTables(documentType, fieldName);
    FieldsDisjoint(documentType, fieldName);
    hide IdentifierField, AddressField, DateField, ProductField, ManufacturerField;
  }

  lemma FieldTables(documentType: string, fieldName: string)
    ensures var f := (documentType, fieldName);
            && (f in IDENTIFIER_FIELDS <==> IdentifierField(documentType, fieldName))
            && (f in PLAIN_FIELDS && PLAIN_FIELDS[f] == ADDRESS <==> AddressField(documentType, fieldName))
            && (f in PLAIN_FIELDS && PLAIN_FIELDS[f] == PRODUCT <==> ProductField(documentType, fieldName))
            && (f in PLAIN_FIELDS && PLAIN_FIELDS[f] == MANUFACTURER <==> ManufacturerField(documentType, fieldName))
            && (f in PLAIN_FIELDS ==> PLAIN_FIELDS[f] in {ADDRESS, PRODUCT, MANUFACTURER})
    ensures var f := (documentType, fieldName);
            && (f in DATE_FIELDS <==> DateField(documentType, fieldName))
            && (f in DATE_FIELDS ==> DATE_FIELDS[f] == if fieldName == "filing_date" then FILING_DATE else UNKNOWN)
  {
  }

  lemma FieldsDisjoint(documentType: string, fieldName: string)
    ensures IdentifierField(documentType, fieldName) ==>
              !AddressField(documentType, fieldName) && !ProductField(documentType, fieldName)
              && !ManufacturerField(documentType, fieldName) && !DateField(documentType, fieldName)
    ensures DateField(documentType, fieldName) ==>
              !AddressField(documentType, fieldName) && !ProductField(documentType, fieldName)
              && !ManufacturerField(documentType, fieldName)
  {
  }

  /** `n` is the normal form of the item in dimension `d`: that of a text, of a printed
      identifier unless it is a boolean, or the day of a date object. */
  ghost predicate HasForm(e: Evidence, d: Dimension, n: string, normalize: Normalizer) {
    && e.value.Some?
    && if e.value.value.Text? then normalize(d, e.value.value.text) == Some(n)
       else if d == IDENTIFIER then !e.value.value.boolean && normalize(IDENTIFIER, e.value.value.printed) == Some(n)
       else d == DATE && e.value.value.day == Some(n)
  }

  /** The bidder's item has a dimension and a normal form in it, and so takes part. */
  ghost predicate TakesPart(e: Evidence, bidder: string, normalize: Normalizer) {
    e.bidderId == bidder && exists d, n :: HasDimension(e, d) && HasForm(e, d, n, normalize)
  }

  ghost predicate SameValue(e: Evidence, f: Evidence) {
    && e.value.Some? && f.value.Some?
    && if e.value.value.Text? then f.value.value == e.value.value
       else f.value.value.Other? && e.value.value.same.Some? && e.value.value.same == f.value.value.same
  }

  /** How two items compare: values of one dimension and field, and of dates only filing
      dates, match or mismatch by their normal forms, those of other dimensions also by
      the values as given; any others are insufficient. */
  ghost predicate Verdict(e: Evidence, f: Evidence, normalize: Normalizer, cal: Calendar, c: Comparison) {
    && c.left == e.evidenceId && c.right == f.evidenceId && HasDimension(e, c.dimension)
    && if !HasDimension(f, c.dimension) || e.fieldName != f.fieldName
       || (c.dimension == DATE && e.fieldName != "filing_date")
       then c.outcome == INSUFFICIENT_EVIDENCE
       else exists m, n :: HasForm(e, c.dimension, m, normalize) && HasForm(f, c.dimension, n, normalize)
                           && c.outcome == (if c.dimension == DATE then DateOutcome(m, n, cal)
                                            else if SameValue(e, f) then MATCH_EXACT
                                            else if m == n then MATCH_NORMALIZED else MISMATCH)
  }

  /** Different dates both before the evaluation date are a conflict of validity. */
  ghost function DateOutcome(m: string, n: string, cal: Calendar): Outcome {
    if m == n then MATCH_EXACT
    else
      match (cal.evaluation, cal.parse(m), cal.parse(n))
      case (Some(today), Some(x), Some(y)) => if x < today && y < today then VALIDITY_CONFLICT else MISMATCH
      case _ => MISMATCH
  }

  lemma FormIs(e: Evidence, normalize: Normalizer, d: Dimension, n: string)
    requires HasDimension(e, d)
    ensures HasForm(e, d, n, normalize) <==> Extract(e, normalize).normalized == Some(n)
    ensures Extract(e, normalize).status == AVAILABLE <==> Extract(e, normalize).normalized.Some?
  {
    FieldsHaveDimensions(e, normalize, d);
    hide ClassifyField, HasDimension;
  }

  lemma TakesPartIs(e: Evidence, bidder: string, normalize: Normalizer)
    ensures TakesPart(e, bidder, normalize) <==> e.bidderId == bidder && Extract(e, normalize).status == AVAILABLE
  {
    var o := Extract(e, normalize);
    if d, n :| HasDimension(e, d) && HasForm(e, d, n, normalize) {
      FormIs(e, normalize, d, n);
    }
    if o.status == AVAILABLE {
      AvailableHasForm(e, normalize);
    }
    hide Extract, HasDimension, HasForm;
  }

  lemma AvailableHasForm(e: Evidence, normalize: Normalizer)
    requires Extract(e, normalize).status == AVAILABLE
    ensures var o := Extract(e, normalize);
            && o.dimension.Some? && o.normalized.Some? && HasDimension(e, o.dimension.value)
            && HasForm(e, o.dimension.value, o.normalized.value, normalize)
  {
    var o := Extract(e, normalize);
    ExtractSound(e, normalize);
    FieldsHaveDimensions(e, normalize, o.dimension.value);
    FormIs(e, normalize, o.dimension.value, o.normalized.value);
    hide Extract, HasDimension, HasForm;
  }

  lemma ExtractKeeps(e: Evidence, normalize: Normalizer)
    ensures var o := Extract(e, normalize);
            && o.evidenceId == e.evidenceId && o.documentType == e.documentType && o.fieldName == e.fieldName
            && o.original == e.value
  {
    hide ClassifyField, Normalize;
  }

  /** Extracted items are comparable exactly when of one dimension and field, dates being
      filing dates. */
  lemma ItemsComparable(e: Evidence, f: Evidence, normalize: Normalizer, d: Dimension)
    requires Extract(e, normalize).status == AVAILABLE == Extract(f, normalize).status && HasDimension(e, d)
    ensures AreComparable(Extract(e, normalize), Extract(f, normalize)) <==>
            HasDimension(f, d) && e.fieldName == f.fieldName && (d == DATE ==> e.fieldName == "filing_date")
  {
    var l, r := Extract(e, normalize), Extract(f, normalize);
    FieldsHaveDimensions(e, normalize, d);
    FieldsHaveDimensions(f, normalize, d);
    ExtractKeeps(e, normalize);
    ExtractKeeps(f, normalize);
    ComparableIff(l, r);
    if d == IDENTIFIER && HasDimension(f, d) && e.fieldName == f.fieldName {
      SameFieldSameKind(e, f, normalize);
    }
    hide Extract, AreComparable;
  }

  lemma SameFieldSameKind(e: Evidence, f: Evidence, normalize: Normalizer)
    requires HasDimension(e, IDENTIFIER) && HasDimension(f, IDENTIFIER) && e.fieldName == f.fieldName
    ensures Extract(e, normalize).kind == Extract(f, normalize).kind
  {
  }

  lemma PairVerdict(e: Evidence, f: Evidence, normalize: Normalizer, cal: Calendar, c: Comparison)
    requires Extract(e, normalize).status == AVAILABLE == Extract(f, normalize).status && e.evidenceId != f.evidenceId
    ensures c == ComparePair(Extract(e, normalize), Extract(f, normalize), cal) <==> Verdict(e, f, normalize, cal, c)
  {
    var l, r := Extract(e, normalize), Extract(f, normalize);
    ExtractKeeps(e, normalize);
    ExtractKeeps(f, normalize);
    AvailableHasForm(e, normalize);
    AvailableHasForm(f, normalize);
    var d := l.dimension.value;
    ItemsComparable(e, f, normalize, d);
    forall x | HasDimension(e, x) ensures x == d { FieldsHaveDimensions(e, normalize, x); }
    if HasDimension(f, d) {
      FieldsHaveDimensions(f, normalize, d);
      forall n ensures HasForm(e, d, n, normalize) <==> l.normalized == Some(n) { FormIs(e, normalize, d, n); }
      forall n ensures HasForm(f, d, n, normalize) <==> r.normalized == Some(n) { FormIs(f, normalize, d, n); }
    }
    SameValueIs(e, f, l, r);
    hide Extract, HasDimension, HasForm, AreComparable, EqualOriginals, SameValue;
  }

  lemma SameValueIs(e: Evidence, f: Evidence, l: Observation, r: Observation)
    requires l.original == e.value && r.original == f.value && e.value.Some? && f.value.Some?
    ensures EqualOriginals(l, r) <==> SameValue(e, f)
  {
  }

  lemma {:induction false} ObservedFrom(evidence: seq<Evidence>, bidder: string, normalize: Normalizer, o: Observation)
    returns (i: nat)
    requires o in Observe(evidence, bidder, normalize)
    ensures i < |evidence| && TakesPart(evidence[i], bidder, normalize) && o == Extract(evidence[i], normalize)
  {
    hide Extract, TakesPart;
    TakesPartIs(evidence[0], bidder, normalize);
    if evidence[0].bidderId == bidder && o == Extract(evidence[0], normalize) && o.status == AVAILABLE {
      i := 0;
    } else {
      var j := ObservedFrom(evidence[1..], bidder, normalize, o);
      i := j + 1;
    }
  }

  lemma {:induction false} ObservedAll(evidence: seq<Evidence>, bidder: string, normalize: Normalizer, i: nat)
    requires i < |evidence| && TakesPart(evidence[i], bidder, normalize)
    ensures Extract(evidence[i], normalize) in Observe(evidence, bidder, normalize)
  {
    hide Extract, TakesPart;
    TakesPartIs(evidence[i], bidder, normalize);
    if i > 0 {
      ObservedAll(evidence[1..], bidder, normalize, i - 1);
    }
  }

  lemma {:induction false} RowMember(x: Observation, t: seq<Observation>, p: (Observation, Observation))
    ensures p in Row(x, t) <==> p.0 == x && p.1 in t
  {
    if t != [] {
      RowMember(x, t[1..], p);
    }
  }

  /** The pairs of the first item, if it takes part, come before those of the rest. */
  lemma PairsHead(evidence: seq<Evidence>, bidder: string, normalize: Normalizer)
    requires evidence != []
    ensures var o, rest := Extract(evidence[0], normalize), Observe(evidence[1..], bidder, normalize);
            AllPairs(Observe(evidence, bidder, normalize)) ==
            if TakesPart(evidence[0], bidder, normalize) then Row(o, rest) + AllPairs(rest) else AllPairs(rest)
  {
    TakesPartIs(evidence[0], bidder, normalize);
    hide Extract, TakesPart, Row;
    var o, rest := Extract(evidence[0], normalize), Observe(evidence[1..], bidder, normalize);
    assert ([o] + rest)[1..] == rest && [] + rest == rest;
  }

  /** Each pair of observations comes from two items in evidence order. */
  lemma {:induction false} PairFrom(evidence: seq<Evidence>, bidder: string, normalize: Normalizer,
                                    p: (Observation, Observation))
    returns (i: nat, j: nat)
    requires p in AllPairs(Observe(evidence, bidder, normalize))
    ensures i < j < |evidence|
    ensures TakesPart(evidence[i], bidder, normalize) && TakesPart(evidence[j], bidder, normalize)
    ensures p == (Extract(evidence[i], normalize), Extract(evidence[j], normalize))
  {
    hide Extract, TakesPart;
    var o, rest := Extract(evidence[0], normalize), Observe(evidence[1..], bidder, normalize);
    PairsHead(evidence, bidder, normalize);
    hide AllPairs, Observe;
    if p in AllPairs(rest) {
      var h, k := PairFrom(evidence[1..], bidder, normalize, p);
      i, j := h + 1, k + 1;
    } else {
      RowMember(o, rest, p);
      var k := ObservedFrom(evidence[1..], bidder, normalize, p.1);
      i, j := 0, k + 1;
    }
  }

  lemma {:induction false} PairOf(evidence: seq<Evidence>, bidder: string, normalize: Normalizer, i: nat, j: nat)
    requires i < j < |evidence|
    requires TakesPart(evidence[i], bidder, normalize) && TakesPart(evidence[j], bidder, normalize)
    ensures (Extract(evidence[i], normalize), Extract(evidence[j], normalize)) in
            AllPairs(Observe(evidence, bidder, normalize))
  {
    hide Extract, TakesPart;
    var o, rest := Extract(evidence[0], normalize), Observe(evidence[1..], bidder, normalize);
    PairsHead(evidence, bidder, normalize);
    if i > 0 {
      PairOf(evidence[1..], bidder, normalize, i - 1, j - 1);
    } else {
      ObservedAll(evidence[1..], bidder, normalize, j - 1);
      RowMember(o, rest, (o, Extract(evidence[j], normalize)));
    }
  }

  lemma {:induction false} ComparisonOf(ps: seq<(Observation, Observation)>, cal: Calendar, c: Comparison)
    ensures c in CompareEach(ps, cal) <==> exists p :: p in ps && c == ComparePair(p.0, p.1, cal)
  {
    hide ComparePair;
    if ps != [] {
      ComparisonOf(ps[1..], cal, c);
      assert forall p :: p in ps <==> p == ps[0] || p in ps[1..];
    }
  }

  /** `c` is the verdict on two of the bidder's items that take part, in evidence order. */
  ghost predicate Reports(evidence: seq<Evidence>, bidder: string, normalize: Normalizer, cal: Calendar,
                          c: Comparison) {
    exists i, j :: 0 <= i < j < |evidence| && TakesPart(evidence[i], bidder, normalize)
                   && TakesPart(evidence[j], bidder, normalize)
                   && Verdict(evidence[i], evidence[j], normalize, cal, c)
  }

  lemma ComparisonsReport(evidence: seq<Evidence>, bidder: string, normalize: Normalizer, cal: Calendar, c: Comparison)
    requires DistinctEvidence(evidence)
    ensures c in CompareEach(AllPairs(Observe(evidence, bidder, normalize)), cal) <==>
            Reports(evidence, bidder, normalize, cal, c)
  {
    hide Extract, TakesPart, Verdict, ComparePair, Observe, AllPairs;
    var ps := AllPairs(Observe(evidence, bidder, normalize));
    ComparisonOf(ps, cal, c);
    if p :| p in ps && c == ComparePair(p.0, p.1, cal) {
      var i, j := PairFrom(evidence, bidder, normalize, p);
      TakesPartIs(evidence[i], bidder, normalize);
      TakesPartIs(evidence[j], bidder, normalize);
      PairVerdict(evidence[i], evidence[j], normalize, cal, c);
    }
    if i, j :| 0 <= i < j < |evidence| && TakesPart(evidence[i], bidder, normalize)
               && TakesPart(evidence[j], bidder, normalize) && Verdict(evidence[i], evidence[j], normalize, cal, c) {
      TakesPartIs(evidence[i], bidder, normalize);
      TakesPartIs(evidence[j], bidder, normalize);
      PairVerdict(evidence[i], evidence[j], normalize, cal, c);
      PairOf(evidence, bidder, normalize, i, j);
      var p := (Extract(evidence[i], normalize), Extract(evidence[j], normalize));
      assert p in ps && c == ComparePair(p.0, p.1, cal);
    }
  }

  /** Refuses a bidder without evidence; otherwise, for evidence with distinct ids,
      every summary count is the count of pairs the lemmas above speak about. */
  method CompareEvidence(evidence: seq<Evidence>, bidder: string, normalize: Normalizer, cal: Calendar)
    returns (a: Option<Aggregation>)
    ensures a.None? <==> forall e :: e in evidence ==> e.bidderId != bidder
    ensures a.Some? && DistinctEvidence(evidence) ==> forall d, k ::
              CountComparisons(a.value.comparisons, d, k) ==
                  CountPairs(Observe(evidence, bidder, normalize), Counted(Some(d), k, cal))
    ensures a.Some? ==> forall i :: 0 <= i < |DIMENSIONS| ==>
              i < |a.value.summaries| && a.value.summaries[i] == Summarize(a.value.comparisons, DIMENSIONS[i])
    ensures a.Some? && DistinctEvidence(evidence) ==>
              forall c :: c in a.value.comparisons <==> Reports(evidence, bidder, normalize, cal, c)
  {
    hide Reports;
    hide Extract, PairOutcome, PairDimension, Summarize, Select;
    var observations := ExtractObservations(evidence, bidder, normalize);
    ExtractedAre(evidence, bidder, normalize);
    if observations == [] {
      return None;
    }
    var compared := CompareAll(observations, cal);
    var aggregation := Aggregate(compared);
    a := Some(aggregation);
    if DistinctEvidence(evidence) {
      ObservedSound(evidence, bidder, normalize);
      EveryPairEnumerated(observations);
    }
    forall c | DistinctEvidence(evidence)
      ensures c in compared <==> Reports(evidence, bidder, normalize, cal, c)
    {
      ComparisonsReport(evidence, bidder, normalize, cal, c);
    }
    forall d, k | DistinctEvidence(evidence)
      ensures CountComparisons(compared, d, k) ==
              CountPairs(Observe(evidence, bidder, normalize), Counted(Some(d), k, cal))
    {
      CountOfPairs(Observe(evidence, bidder, normalize), d, k, cal);
    }
  }
}
