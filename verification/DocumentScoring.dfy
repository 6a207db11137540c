/** Bidder document scoring (src/ai_verification/document_scoring). The policy,
    its normaliser and the flag registry are arbitrary, so every result holds
    for each tender's configuration and in particular for the default one. */
module DocumentScoring {
  import opened Ordering
  import opened Rounding
  import opened Vocabulary

  datatype Priority = CRITICAL | HIGH | MEDIUM | LOW | UNKNOWN_PRIORITY

  datatype TrafficLight = GREEN | YELLOW | RED

  datatype Reason =
    | DOCUMENT_MISSING
    | NO_EVIDENCE
    | LOW_EVIDENCE_CONFIDENCE
    | COMPLIANCE_FAILED
    | COMPLIANCE_MISSING
    | COMPLIANCE_UNVERIFIABLE
    | COMPLIANCE_WARNING
    | VERIFICATION_FAILED
    | VERIFICATION_UNAVAILABLE
    | MATERIAL_FINDING
    | EVIDENCE_QUALITY_DEGRADED
    | EVIDENCE_QUALITY_UNKNOWN
    | UNKNOWN_DOCUMENT_TYPE
    | VERIFIED
    | NO_MATERIAL_ISSUES

  type Weight = w: real | w > 0.0 witness 1.0

  type DocumentScore = s: real | 0.0 <= s <= 100.0 witness 0.0

  datatype Importance = Importance(priority: Priority, weight: Weight)

  datatype Policy = Policy(
    redThreshold: real,
    yellowThreshold: real,
    minimumConfidence: real,
    importance: map<string, Importance>,
    normalizeType: string -> string,
    normalizeCapability: string -> string,
    required: map<string, seq<string>>,
    material: map<string, bool>
  )

  datatype Document = Document(documentId: string, documentType: string)
  datatype Requirement = Requirement(capability: string, applicable: bool)
  datatype Evidence = Evidence(evidenceId: string, documentId: string, confidence: Option<real>)
  datatype ComplianceResult = ComplianceResult(capability: string, status: ComplianceStatus, flags: seq<string>)
  datatype Verification = Verification(capability: string, status: VerificationStatus)
  datatype Finding = Finding(flagId: string, evidenceRefs: seq<string>, tracedDocuments: seq<string>)

  /** Identity findings are findings without a trace. */
  datatype Inputs = Inputs(
    documents: seq<Document>,
    requirements: seq<Requirement>,
    evidence: seq<Evidence>,
    results: seq<ComplianceResult>,
    verifications: seq<Verification>,
    findings: seq<Finding>,
    quality: map<string, QualityState>
  )

  /** Sorted duplicate-free listings of the source are sets here, apart from `flags`;
      a detail without document id stands for a missing document. */
  datatype Detail = Detail(
    documentId: Option<string>,
    documentType: string,
    sourceType: Option<string>,
    priority: Priority,
    weight: Weight,
    evidenceCount: nat,
    averageConfidence: Option<real>,
    complianceStatuses: set<ComplianceStatus>,
    verificationStatuses: set<VerificationStatus>,
    flags: seq<string>,
    reasons: set<Reason>,
    score: DocumentScore
  )

  datatype BidderScore = BidderScore(score: real, category: TrafficLight, details: seq<Detail>, reasons: set<Reason>)

  // ----- policy tables -----

  function ComplianceDeduction(s: ComplianceStatus): real {
    match s
    case FAIL => 60.0
    case MISSING => 45.0
    case UNVERIFIABLE => 30.0
    case WARNING => 20.0
    case NOT_CHECKED => 20.0
    case _ => 0.0
  }

  function VerificationDeduction(s: VerificationStatus): real {
    match s
    case INVALID => 45.0
    case INACTIVE => 45.0
    case NOT_FOUND => 40.0
    case UNAVAILABLE => 30.0
    case ERROR => 30.0
    case VERIFIED => 0.0
  }

  function QualityDeduction(q: Option<QualityState>): real {
    match q
    case Some(DEGRADED) => 15.0
    case Some(UNKNOWN) => 25.0
    case _ => 0.0
  }

  function ComplianceReason(s: ComplianceStatus): set<Reason> {
    match s
    case FAIL => {COMPLIANCE_FAILED}
    case MISSING => {COMPLIANCE_MISSING}
    case UNVERIFIABLE => {COMPLIANCE_UNVERIFIABLE}
    case WARNING => {COMPLIANCE_WARNING}
    case _ => {}
  }

  function VerificationReason(s: VerificationStatus): set<Reason> {
    match s
    case VERIFIED => {}
    case UNAVAILABLE => {VERIFICATION_UNAVAILABLE}
    case ERROR => {VERIFICATION_UNAVAILABLE}
    case _ => {VERIFICATION_FAILED}
  }

  function ImportanceFor(p: Policy, documentType: string): Importance {
    var canonical := p.normalizeType(documentType);
    if canonical in p.importance then p.importance[canonical]
    else if "UNKNOWN" in p.importance then p.importance["UNKNOWN"]
    else Importance(LOW, 0.25)
  }

  function CanonicalType(p: Policy, documentType: string): string {
    var canonical := p.normalizeType(documentType);
    if canonical in p.importance then canonical else "UNKNOWN"
  }

  function ExpectedFor(p: Policy, capability: string): set<string> {
    var key := p.normalizeCapability(capability);
    if key in p.required then set t | t in p.required[key] :: p.normalizeType(t) else {}
  }

  function ExpectedTypes(p: Policy, i: Inputs): set<string> {
    (set r, t | r in i.requirements && r.applicable && t in ExpectedFor(p, r.capability) :: CanonicalType(p, t))
    + (set r, t | r in i.results && r.status != NOT_APPLICABLE && t in ExpectedFor(p, r.capability) ::
       CanonicalType(p, t))
  }

  // ----- sums -----

  function Sum<T>(s: seq<T>, f: T -> real): real {
    if s == [] then 0.0 else f(s[0]) + Sum(s[1..], f)
  }

  lemma {:induction false} SumConcat<T>(a: seq<T>, b: seq<T>, f: T -> real)
    ensures Sum(a + b, f) == Sum(a, f) + Sum(b, f)
  {
    if a == [] {
      assert a + b == b;
    } else {
      assert (a + b)[1..] == a[1..] + b;
      SumConcat(a[1..], b, f);
    }
  }

  lemma SumStep<T>(s: seq<T>, k: nat, f: T -> real)
    requires k < |s|
    ensures Sum(s[..k + 1], f) == Sum(s[..k], f) + f(s[k])
  {
    assert s[..k + 1] == s[..k] + [s[k]];
    SumConcat(s[..k], [s[k]], f);
  }

  lemma {:induction false} SumNonNegative<T(!new)>(s: seq<T>, f: T -> real)
    requires forall x :: f(x) >= 0.0
    ensures Sum(s, f) >= 0.0
  {
    if s != [] {
      SumNonNegative(s[1..], f);
    }
  }

  lemma TakeOut<T>(a: seq<T>, b: seq<T>) returns (l: seq<T>, r: seq<T>)
    requires a != [] && multiset(a) <= multiset(b)
    ensures b == l + ([a[0]] + r)
    ensures multiset(a[1..]) <= multiset(l + r)
  {
    assert a[0] in multiset(a);
    assert a[0] in b;
    var i :| 0 <= i < |b| && b[i] == a[0];
    l, r := b[..i], b[i + 1..];
    assert b == l + ([a[0]] + r);
    assert multiset(l + ([a[0]] + r)) == multiset(l) + (multiset{a[0]} + multiset(r));
    assert multiset(l + r) == multiset(l) + multiset(r);
    assert a == [a[0]] + a[1..];
    assert multiset([a[0]] + a[1..]) == multiset{a[0]} + multiset(a[1..]);
    DropCommon(a[0], multiset(a[1..]), multiset(l + r));
  }

  lemma DropCommon<T>(x: T, a: multiset<T>, b: multiset<T>)
    requires multiset{x} + a <= multiset{x} + b
    ensures a <= b
  {
    forall y ensures a[y] <= b[y] {
      assert (multiset{x} + a)[y] <= (multiset{x} + b)[y];
    }
  }

  /** A sum of non-negative terms grows with the collection summed. */
  lemma {:induction false} SumMonotone<T(!new)>(a: seq<T>, b: seq<T>, f: T -> real)
    requires forall x :: f(x) >= 0.0
    requires multiset(a) <= multiset(b)
    ensures Sum(a, f) <= Sum(b, f)
  {
    if a == [] {
      SumNonNegative(b, f);
    } else {
      var l, r := TakeOut(a, b);
      SumMonotone(a[1..], l + r, f);
      SumConcat(l, r, f);
      SumConcat(l, [a[0]] + r, f);
      assert ([a[0]] + r)[1..] == r;
    }
  }

  // ----- one document -----

  predicate AppliesTo(p: Policy, documentType: string, capability: string) {
    documentType in ExpectedFor(p, capability)
  }

  function ComplianceCost(p: Policy, t: string): ComplianceResult -> real {
    (r: ComplianceResult) => if AppliesTo(p, t, r.capability) then ComplianceDeduction(r.status) else 0.0
  }

  function VerificationCost(p: Policy, t: string): Verification -> real {
    (v: Verification) => if AppliesTo(p, t, v.capability) then VerificationDeduction(v.status) else 0.0
  }

  predicate IsMaterial(p: Policy, flag: string) {
    flag in p.material && p.material[flag]
  }

  function FlagCost(p: Policy): string -> real {
    (flag: string) => if IsMaterial(p, flag) then 25.0 else 0.0
  }

  function EvidenceFor(evidence: seq<Evidence>, id: string): seq<Evidence> {
    if evidence == [] then []
    else if evidence[0].documentId == id then [evidence[0]] + EvidenceFor(evidence[1..], id)
    else EvidenceFor(evidence[1..], id)
  }

  function Confidences(evidence: seq<Evidence>): seq<real> {
    if evidence == [] then []
    else if evidence[0].confidence.Some? then [evidence[0].confidence.value] + Confidences(evidence[1..])
    else Confidences(evidence[1..])
  }

  function AverageConfidence(evidence: seq<Evidence>): Option<real> {
    var c := Confidences(evidence);
    if c == [] then None else Some(Round4(Sum(c, (x: real) => x) / |c| as real))
  }

  predicate LowConfidence(p: Policy, evidence: seq<Evidence>) {
    var average := AverageConfidence(evidence);
    average.Some? && average.value < p.minimumConfidence
  }

  predicate Touches(f: Finding, documentId: string, evidence: seq<Evidence>) {
    documentId in f.tracedDocuments || exists e :: e in evidence && e.evidenceId in f.evidenceRefs
  }

  function DocumentFlags(p: Policy, i: Inputs, d: Document): set<string> {
    (set f | f in i.findings && Touches(f, d.documentId, EvidenceFor(i.evidence, d.documentId)) :: f.flagId)
    + (set r, g | r in i.results && AppliesTo(p, CanonicalType(p, d.documentType), r.capability) && g in r.flags :: g)
  }

  function QualityOf(i: Inputs, d: Document): Option<QualityState> {
    if d.documentId in i.quality then Some(i.quality[d.documentId]) else None
  }

  /** Points taken off for the document's own evidence, independent of findings. */
  function EvidenceDeduction(p: Policy, evidence: seq<Evidence>): real {
    (if evidence == [] then 35.0 else 0.0) + (if LowConfidence(p, evidence) then 15.0 else 0.0)
  }

  function EvidenceReasons(p: Policy, t: string, evidence: seq<Evidence>): set<Reason> {
    (if evidence == [] then {NO_EVIDENCE} else {})
    + (if t == "UNKNOWN" then {UNKNOWN_DOCUMENT_TYPE} else {})
    + (if LowConfidence(p, evidence) then {LOW_EVIDENCE_CONFIDENCE} else {})
  }

  function ComplianceReasons(p: Policy, t: string, results: seq<ComplianceResult>): set<Reason> {
    set r, x | r in results && AppliesTo(p, t, r.capability) && x in ComplianceReason(r.status) :: x
  }

  function VerificationReasons(p: Policy, t: string, records: seq<Verification>): set<Reason> {
    set v, x | v in records && AppliesTo(p, t, v.capability) && x in VerificationReason(v.status) :: x
  }

  function MaterialReasons(p: Policy, flags: seq<string>): set<Reason> {
    if exists f :: f in flags && IsMaterial(p, f) then {MATERIAL_FINDING} else {}
  }

  function QualityReasons(q: Option<QualityState>): set<Reason> {
    match q
    case Some(DEGRADED) => {EVIDENCE_QUALITY_DEGRADED}
    case Some(UNKNOWN) => {EVIDENCE_QUALITY_UNKNOWN}
    case _ => {}
  }

  function AdverseReasons(p: Policy, i: Inputs, d: Document): set<Reason> {
    var t := CanonicalType(p, d.documentType);
    EvidenceReasons(p, t, EvidenceFor(i.evidence, d.documentId))
    + ComplianceReasons(p, t, i.results)
    + VerificationReasons(p, t, i.verifications)
    + MaterialReasons(p, SortedSet(DocumentFlags(p, i, d)))
    + QualityReasons(QualityOf(i, d))
  }

  function Points(p: Policy, i: Inputs, d: Document): real {
    var t := CanonicalType(p, d.documentType);
    100.0
    - EvidenceDeduction(p, EvidenceFor(i.evidence, d.documentId))
    - Sum(i.results, ComplianceCost(p, t))
    - Sum(i.verifications, VerificationCost(p, t))
    - Sum(SortedSet(DocumentFlags(p, i, d)), FlagCost(p))
    - QualityDeduction(QualityOf(i, d))
  }

  predicate AllVerified(p: Policy, t: string, records: seq<Verification>) {
    (exists v :: v in records && AppliesTo(p, t, v.capability))
    && forall v :: v in records && AppliesTo(p, t, v.capability) ==> v.status == VerificationStatus.VERIFIED
  }

  function WithPositive(reasons: set<Reason>, points: real, allVerified: bool): set<Reason> {
    var r := if points >= 80.0 && reasons == {} then reasons + {NO_MATERIAL_ISSUES} else reasons;
    if allVerified && r == {} then r + {Reason.VERIFIED} else r
  }

  function Clamp(x: real): real {
    if x < 0.0 then 0.0 else if x > 100.0 then 100.0 else x
  }

  function RoundedScore(points: real): DocumentScore {
    Round2Monotone(0.0, Clamp(points));
    Round2Monotone(Clamp(points), 100.0);
    Round2(Clamp(points))
  }

  function FinalDetail(p: Policy, i: Inputs, d: Document, points: real, reasons: set<Reason>): Detail {
    var t := CanonicalType(p, d.documentType);
    var importance, evidence := ImportanceFor(p, t), EvidenceFor(i.evidence, d.documentId);
    Detail(Some(d.documentId), t, Some(d.documentType), importance.priority, importance.weight,
           |evidence|, AverageConfidence(evidence),
           set r | r in i.results && AppliesTo(p, t, r.capability) :: r.status,
           set v | v in i.verifications && AppliesTo(p, t, v.capability) :: v.status,
           SortedSet(DocumentFlags(p, i, d)),
           WithPositive(reasons, points, AllVerified(p, t, i.verifications)),
           RoundedScore(points))
  }

  function DocumentDetail(p: Policy, i: Inputs, d: Document): Detail {
    FinalDetail(p, i, d, Points(p, i, d), AdverseReasons(p, i, d))
  }

  predicate FlagsKnown(p: Policy, i: Inputs, d: Document) {
    forall f :: f in DocumentFlags(p, i, d) ==> f in p.material
  }

  /** Scores one document; None when some collected flag is not registered. */
  method ScoreDocument(p: Policy, i: Inputs, d: Document) returns (r: Option<Detail>)
    ensures r == if FlagsKnown(p, i, d) then Some(DocumentDetail(p, i, d)) else None
    ensures r.Some? ==> Describes(p, i, d, r.value)
    ensures r.None? <==> exists f :: FlagOf(p, i, d, f) && f !in p.material
  {
    DetailDescribes(p, i, d);
    UnknownFlag(p, i, d);
    hide Describes, FlagOf, SortedSet, ImportanceFor;
    hide CanonicalType, EvidenceFor, EvidenceDeduction, EvidenceReasons, ComplianceReasons, VerificationReasons;
    hide MaterialReasons, QualityReasons, QualityOf, DocumentFlags, FinalDetail, Sum, FlagsKnown;
    var t := CanonicalType(p, d.documentType);
    var evidence := EvidenceFor(i.evidence, d.documentId);
    var score := 100.0 - EvidenceDeduction(p, evidence);
    var reasons := EvidenceReasons(p, t, evidence);
    score, reasons := DeductCompliance(p, t, i.results, score, reasons);
    score, reasons := DeductVerifications(p, t, i.verifications, score, reasons);
    var flags := DocumentFlags(p, i, d);
    if !FlagsKnown(p, i, d) {
      return None;
    }
    score, reasons := DeductFlags(p, SortedSet(flags), score, reasons);
    score := score - QualityDeduction(QualityOf(i, d));
    reasons := reasons + QualityReasons(QualityOf(i, d));
    assert reasons == AdverseReasons(p, i, d) && score == Points(p, i, d);
    r := Some(FinalDetail(p, i, d, score, reasons));
  }

  method DeductCompliance(p: Policy, t: string, results: seq<ComplianceResult>, score: real, reasons: set<Reason>)
    returns (score': real, reasons': set<Reason>)
    ensures score' == score - Sum(results, ComplianceCost(p, t))
    ensures reasons' == reasons + ComplianceReasons(p, t, results)
  {
    score', reasons' := score, reasons;
    var k := 0;
    while k < |results|
      invariant 0 <= k <= |results|
      invariant score' == score - Sum(results[..k], ComplianceCost(p, t))
      invariant reasons' == reasons + ComplianceReasons(p, t, results[..k])
    {
      SumStep(results, k, ComplianceCost(p, t));
      assert results[..k + 1] == results[..k] + [results[k]];
      if AppliesTo(p, t, results[k].capability) {
        score' := score' - ComplianceDeduction(results[k].status);
        reasons' := reasons' + ComplianceReason(results[k].status);
      }
      k := k + 1;
    }
    assert results[..k] == results;
  }

  method DeductVerifications(p: Policy, t: string, records: seq<Verification>, score: real, reasons: set<Reason>)
    returns (score': real, reasons': set<Reason>)
    ensures score' == score - Sum(records, VerificationCost(p, t))
    ensures reasons' == reasons + VerificationReasons(p, t, records)
  {
    score', reasons' := score, reasons;
    var k := 0;
    while k < |records|
      invariant 0 <= k <= |records|
      invariant score' == score - Sum(records[..k], VerificationCost(p, t))
      invariant reasons' == reasons + VerificationReasons(p, t, records[..k])
    {
      SumStep(records, k, VerificationCost(p, t));
      assert records[..k + 1] == records[..k] + [records[k]];
      if AppliesTo(p, t, records[k].capability) {
        score' := score' - VerificationDeduction(records[k].status);
        reasons' := reasons' + VerificationReason(records[k].status);
      }
      k := k + 1;
    }
    assert records[..k] == records;
  }

  method DeductFlags(p: Policy, flags: seq<string>, score: real, reasons: set<Reason>)
    returns (score': real, reasons': set<Reason>)
    ensures score' == score - Sum(flags, FlagCost(p))
    ensures reasons' == reasons + MaterialReasons(p, flags)
  {
    score', reasons' := score, reasons;
    var k := 0;
    while k < |flags|
      invariant 0 <= k <= |flags|
      invariant score' == score - Sum(flags[..k], FlagCost(p))
      invariant reasons' == reasons + MaterialReasons(p, flags[..k])
    {
      SumStep(flags, k, FlagCost(p));
      assert flags[..k + 1] == flags[..k] + [flags[k]];
      if IsMaterial(p, flags[k]) {
        score' := score' - 25.0;
        reasons' := reasons' + {MATERIAL_FINDING};
      }
      k := k + 1;
    }
    assert flags[..k] == flags;
  }

  // ----- one bidder -----

  function PresentTypes(p: Policy, documents: seq<Document>): set<string> {
    set d | d in documents :: CanonicalType(p, d.documentType)
  }

  function MissingTypes(p: Policy, i: Inputs): set<string> {
    ExpectedTypes(p, i) - PresentTypes(p, i.documents)
  }

  function MissingDetail(p: Policy, t: string): Detail {
    var importance := ImportanceFor(p, t);
    Detail(None, t, None, importance.priority, importance.weight, 0, None, {}, {}, [],
           {DOCUMENT_MISSING, NO_EVIDENCE}, 0.0)
  }

  function Presents(p: Policy, i: Inputs): (r: seq<Detail>)
    ensures |r| == |i.documents|
    ensures forall k :: 0 <= k < |r| ==> r[k] == DocumentDetail(p, i, i.documents[k])
  {
    seq(|i.documents|, k requires 0 <= k < |i.documents| => DocumentDetail(p, i, i.documents[k]))
  }

  function Missings(p: Policy, types: seq<string>): (r: seq<Detail>)
    ensures |r| == |types|
    ensures forall k :: 0 <= k < |r| ==> r[k] == MissingDetail(p, types[k])
  {
    seq(|types|, k requires 0 <= k < |types| => MissingDetail(p, types[k]))
  }

  function Details(p: Policy, i: Inputs): seq<Detail> {
    Presents(p, i) + Missings(p, SortedSet(MissingTypes(p, i)))
  }

  function WeightOf(): Detail -> real { (d: Detail) => d.weight }

  function WeightedScoreOf(): Detail -> real { (d: Detail) => d.score * d.weight }

  function WeightedMean(details: seq<Detail>): real {
    var denominator := Sum(details, WeightOf());
    if denominator <= 0.0 then 0.0 else Sum(details, WeightedScoreOf()) / denominator
  }

  predicate Blocking(d: Detail) {
    (d.priority in {CRITICAL, HIGH}
     && d.reasons * {DOCUMENT_MISSING, COMPLIANCE_FAILED, COMPLIANCE_MISSING, VERIFICATION_FAILED} != {})
    || MATERIAL_FINDING in d.reasons
  }

  function Categorize(p: Policy, score: real, details: seq<Detail>): TrafficLight {
    if score < p.redThreshold || exists d :: d in details && Blocking(d) then RED
    else if score < p.yellowThreshold || exists d :: d in details && d.documentType == "UNKNOWN" then YELLOW
    else GREEN
  }

  predicate NothingToScore(p: Policy, i: Inputs) {
    i.documents == [] && ExpectedTypes(p, i) == {}
  }

  function AllReasons(details: seq<Detail>): set<Reason> {
    set d, x | d in details && x in d.reasons :: x
  }

  function BidderResult(p: Policy, i: Inputs): BidderScore {
    if NothingToScore(p, i) then BidderScore(0.0, RED, [], {DOCUMENT_MISSING})
    else
      var details := Details(p, i);
      var mean := WeightedMean(details);
      BidderScore(Round2(mean), Categorize(p, mean, details), details, AllReasons(details))
  }

  predicate Scorable(p: Policy, i: Inputs) {
    forall d :: d in i.documents ==> FlagsKnown(p, i, d)
  }

  method Score(p: Policy, i: Inputs) returns (r: Option<BidderScore>)
    ensures r == if Scorable(p, i) then Some(BidderResult(p, i)) else None
    ensures r.None? <==> exists d, f :: d in i.documents && FlagOf(p, i, d, f) && f !in p.material
    ensures r.Some? && i.documents == [] && (forall t :: !IsExpected(p, i, t)) ==>
              r.value == BidderScore(0.0, RED, [], {DOCUMENT_MISSING})
    ensures r.Some? && (i.documents != [] || exists t :: IsExpected(p, i, t)) ==>
              Lists(p, i, r.value.details) && exists m :: Summarizes(p, r.value, m)
  {
    ScoreDescribes(p, i);
    hide Describes, FlagOf, IsExpected, Lists, Summarizes;
    if NothingToScore(p, i) {
      return Some(BidderScore(0.0, RED, [], {DOCUMENT_MISSING}));
    }
    var present := ScorePresents(p, i);
    if present.None? {
      return None;
    }
    var details := AppendMissing(p, present.value, SortedSet(MissingTypes(p, i)));
    var mean := WeightedMean(details);
    r := Some(BidderScore(Round2(mean), Categorize(p, mean, details), details, AllReasons(details)));
  }

  method ScorePresents(p: Policy, i: Inputs) returns (r: Option<seq<Detail>>)
    ensures r.Some? <==> Scorable(p, i)
    ensures r.Some? ==> r.value == Presents(p, i)
  {
    hide FlagsKnown, DocumentDetail, Presents, Describes, FlagOf;
    var details: seq<Detail> := [];
    for k := 0 to |i.documents|
      invariant |details| == k && forall h :: 0 <= h < k ==> details[h] == DocumentDetail(p, i, i.documents[h])
      invariant forall h :: 0 <= h < k ==> FlagsKnown(p, i, i.documents[h])
    {
      var detail := ScoreDocument(p, i, i.documents[k]);
      if detail.None? {
        assert i.documents[k] in i.documents;
        return None;
      }
      details := details + [detail.value];
    }
    ArePresents(p, i, details);
    r := Some(details);
  }

  lemma ArePresents(p: Policy, i: Inputs, details: seq<Detail>)
    requires |details| == |i.documents|
    requires forall h :: 0 <= h < |details| ==> details[h] == DocumentDetail(p, i, i.documents[h])
    ensures details == Presents(p, i)
  {
  }

  method AppendMissing(p: Policy, present: seq<Detail>, missing: seq<string>) returns (details: seq<Detail>)
    ensures details == present + Missings(p, missing)
  {
    details := present;
    var k := 0;
    while k < |missing|
      invariant 0 <= k <= |missing|
      invariant details == present + Missings(p, missing)[..k]
    {
      details := details + [MissingDetail(p, missing[k])];
      k := k + 1;
    }
    assert Missings(p, missing)[..k] == Missings(p, missing);
  }

  // ----- more adverse evidence -----

  /** Same documents, requirements, evidence and quality; at least the same results,
      verifications and findings, in any order. */
  ghost predicate AtLeastAsMuch(i: Inputs, j: Inputs) {
    && j.documents == i.documents && j.requirements == i.requirements
    && j.evidence == i.evidence && j.quality == i.quality
    && multiset(i.results) <= multiset(j.results)
    && multiset(i.verifications) <= multiset(j.verifications)
    && multiset(i.findings) <= multiset(j.findings)
  }

  lemma Included<T>(a: seq<T>, b: seq<T>)
    requires multiset(a) <= multiset(b)
    ensures forall x :: x in a ==> x in b
  {
    forall x | x in a ensures x in b {
      assert x in multiset(a);
      assert x in multiset(b);
    }
  }

  lemma {:induction false} SortedSetMultiset(s: set<string>)
    ensures multiset(SortedSet(s)) == multiset(s)
  {
    forall x ensures multiset(SortedSet(s))[x] == multiset(s)[x] {
      DistinctCount(SortedSet(s), x);
    }
  }

  lemma SortedSetsInclude(a: set<string>, b: set<string>)
    requires a <= b
    ensures multiset(SortedSet(a)) <= multiset(SortedSet(b))
  {
    SortedSetMultiset(a);
    SortedSetMultiset(b);
  }

  lemma CostsNonNegative(p: Policy, t: string)
    ensures forall r :: ComplianceCost(p, t)(r) >= 0.0
    ensures forall v :: VerificationCost(p, t)(v) >= 0.0
    ensures forall f :: FlagCost(p)(f) >= 0.0
  {
  }

  lemma FlagsGrow(p: Policy, i: Inputs, j: Inputs, d: Document)
    requires AtLeastAsMuch(i, j)
    ensures DocumentFlags(p, i, d) <= DocumentFlags(p, j, d)
  {
    Included(i.results, j.results);
    Included(i.findings, j.findings);
  }

  lemma PointsShrink(p: Policy, i: Inputs, j: Inputs, d: Document)
    requires AtLeastAsMuch(i, j)
    ensures Points(p, j, d) <= Points(p, i, d)
  {
    var t := CanonicalType(p, d.documentType);
    CostsNonNegative(p, t);
    SumMonotone(i.results, j.results, ComplianceCost(p, t));
    SumMonotone(i.verifications, j.verifications, VerificationCost(p, t));
    FlagsGrow(p, i, j, d);
    SortedSetsInclude(DocumentFlags(p, i, d), DocumentFlags(p, j, d));
    SumMonotone(SortedSet(DocumentFlags(p, i, d)), SortedSet(DocumentFlags(p, j, d)), FlagCost(p));
  }

  lemma ComplianceReasonsGrow(p: Policy, t: string, a: seq<ComplianceResult>, b: seq<ComplianceResult>)
    requires multiset(a) <= multiset(b)
    ensures ComplianceReasons(p, t, a) <= ComplianceReasons(p, t, b)
  {
    Included(a, b);
  }

  lemma VerificationReasonsGrow(p: Policy, t: string, a: seq<Verification>, b: seq<Verification>)
    requires multiset(a) <= multiset(b)
    ensures VerificationReasons(p, t, a) <= VerificationReasons(p, t, b)
  {
    Included(a, b);
  }

  lemma MaterialReasonsGrow(p: Policy, a: set<string>, b: set<string>)
    requires a <= b
    ensures MaterialReasons(p, SortedSet(a)) <= MaterialReasons(p, SortedSet(b))
  {
    hide IsMaterial, SortedSet;
    if f :| f in SortedSet(a) && IsMaterial(p, f) {
      assert f in SortedSet(b);
    }
  }

  lemma ReasonsGrow(p: Policy, i: Inputs, j: Inputs, d: Document)
    requires AtLeastAsMuch(i, j)
    ensures AdverseReasons(p, i, d) <= AdverseReasons(p, j, d)
  {
    var t := CanonicalType(p, d.documentType);
    var e := EvidenceReasons(p, t, EvidenceFor(i.evidence, d.documentId));
    var f, g := DocumentFlags(p, i, d), DocumentFlags(p, j, d);
    ComplianceReasonsGrow(p, t, i.results, j.results);
    VerificationReasonsGrow(p, t, i.verifications, j.verifications);
    FlagsGrow(p, i, j, d);
    MaterialReasonsGrow(p, f, g);
    ReasonParts(e, ComplianceReasons(p, t, i.results), ComplianceReasons(p, t, j.results),
                VerificationReasons(p, t, i.verifications), VerificationReasons(p, t, j.verifications),
                MaterialReasons(p, SortedSet(f)), MaterialReasons(p, SortedSet(g)), QualityReasons(QualityOf(i, d)));
  }

  lemma ReasonParts(e: set<Reason>, c: set<Reason>, c': set<Reason>, v: set<Reason>, v': set<Reason>,
                    m: set<Reason>, m': set<Reason>, q: set<Reason>)
    requires c <= c' && v <= v' && m <= m'
    ensures e + c + v + m + q <= e + c' + v' + m' + q
  {
  }

  lemma FinalWorsens(p: Policy, i: Inputs, j: Inputs, d: Document, x: real, y: real, r: set<Reason>, q: set<Reason>)
    requires y <= x && r <= q
    ensures var a, b := FinalDetail(p, i, d, x, r), FinalDetail(p, j, d, y, q);
            && a.documentType == b.documentType && a.priority == b.priority && a.weight == b.weight
            && b.score <= a.score
            && (Blocking(a) ==> Blocking(b))
  {
    hide Round2, DocumentFlags, ImportanceFor, CanonicalType, AllVerified, SortedSet;
    Round2Monotone(Clamp(y), Clamp(x));
  }

  /** A document never gains from more results, verifications or findings. */
  lemma DetailWorsens(p: Policy, i: Inputs, j: Inputs, d: Document)
    requires AtLeastAsMuch(i, j)
    ensures var a, b := DocumentDetail(p, i, d), DocumentDetail(p, j, d);
            && a.documentType == b.documentType && a.priority == b.priority && a.weight == b.weight
            && b.score <= a.score
            && (Blocking(a) ==> Blocking(b))
  {
    PointsShrink(p, i, j, d);
    ReasonsGrow(p, i, j, d);
    FinalWorsens(p, i, j, d, Points(p, i, d), Points(p, j, d), AdverseReasons(p, i, d), AdverseReasons(p, j, d));
  }

  lemma MissingGrow(p: Policy, i: Inputs, j: Inputs)
    requires AtLeastAsMuch(i, j)
    ensures ExpectedTypes(p, i) <= ExpectedTypes(p, j)
    ensures MissingTypes(p, i) <= MissingTypes(p, j)
  {
    Included(i.results, j.results);
  }

  lemma {:induction false} ScoresShrink(a: seq<Detail>, b: seq<Detail>)
    requires |a| == |b| && forall k :: 0 <= k < |a| ==> a[k].weight == b[k].weight && b[k].score <= a[k].score
    ensures Sum(a, WeightOf()) == Sum(b, WeightOf())
    ensures Sum(b, WeightedScoreOf()) <= Sum(a, WeightedScoreOf())
  {
    if a != [] {
      ScoresShrink(a[1..], b[1..]);
      assert b[0].score * b[0].weight <= a[0].score * a[0].weight;
    }
  }

  lemma {:induction false} MissingScores(p: Policy, types: seq<string>)
    ensures Sum(Missings(p, types), WeightedScoreOf()) == 0.0
    ensures Sum(Missings(p, types), WeightOf()) == Sum(types, TypeWeight(p))
  {
    if types != [] {
      assert Missings(p, types)[1..] == Missings(p, types[1..]);
      MissingScores(p, types[1..]);
    }
  }

  function TypeWeight(p: Policy): string -> real { (t: string) => ImportanceFor(p, t).weight }

  lemma {:induction false} ScoredNonNegative(a: seq<Detail>)
    ensures Sum(a, WeightedScoreOf()) >= 0.0
    ensures a != [] ==> Sum(a, WeightOf()) > 0.0
  {
    if a != [] {
      ScoredNonNegative(a[1..]);
      assert a[0].score * a[0].weight >= 0.0;
    }
  }

  lemma QuotientBound(n: real, d: real, q: real)
    requires 0.0 < d && n <= q * d
    ensures n / d <= q
  {
  }

  lemma QuotientShrinks(n: real, m: real, d: real, e: real)
    requires 0.0 <= m <= n && 0.0 < d <= e
    ensures 0.0 <= m / e <= n / d
  {
    var q := n / d;
    assert q >= 0.0 && q * d == n;
    assert q * d <= q * e;
    QuotientBound(m, e, q);
  }

  lemma EmptySum<T>(f: T -> real)
    ensures Sum([], f) == 0.0
  {
  }

  /** Lowering scores and adding zero-score details lowers the weighted mean. */
  lemma MeanOfParts(a: seq<Detail>, m: seq<Detail>, b: seq<Detail>, n: seq<Detail>)
    requires |a| == |b| && forall k :: 0 <= k < |a| ==> a[k].weight == b[k].weight && b[k].score <= a[k].score
    requires Sum(m, WeightedScoreOf()) == 0.0 == Sum(n, WeightedScoreOf())
    requires Sum(m, WeightOf()) <= Sum(n, WeightOf())
    ensures 0.0 <= WeightedMean(b + n) <= WeightedMean(a + m)
  {
    hide Sum, WeightOf, WeightedScoreOf;
    ScoresShrink(a, b);
    SumConcat(a, m, WeightedScoreOf());
    SumConcat(a, m, WeightOf());
    SumConcat(b, n, WeightedScoreOf());
    SumConcat(b, n, WeightOf());
    ScoredNonNegative(b);
    ScoredNonNegative(a + m);
    if Sum(a + m, WeightOf()) > 0.0 {
      QuotientShrinks(Sum(a, WeightedScoreOf()), Sum(b, WeightedScoreOf()), Sum(a + m, WeightOf()),
                      Sum(b + n, WeightOf()));
    } else {
      assert a + m == [] && |b| == 0;
      assert b == [] && a == [];
      EmptySum(WeightedScoreOf());
    }
  }

  lemma PresentsWorsen(p: Policy, i: Inputs, j: Inputs)
    requires AtLeastAsMuch(i, j)
    ensures |Presents(p, i)| == |Presents(p, j)| == |i.documents|
    ensures forall k :: 0 <= k < |i.documents| ==>
              var a, b := Presents(p, i)[k], Presents(p, j)[k];
              a.documentType == b.documentType && a.weight == b.weight && b.score <= a.score
                  && (Blocking(a) ==> Blocking(b))
  {
    forall k | 0 <= k < |i.documents|
      ensures var a, b := Presents(p, i)[k], Presents(p, j)[k];
              a.documentType == b.documentType && a.weight == b.weight && b.score <= a.score
                  && (Blocking(a) ==> Blocking(b))
    {
      DetailWorsens(p, i, j, i.documents[k]);
    }
  }

  lemma MissingWeightGrows(p: Policy, a: set<string>, b: set<string>)
    requires a <= b
    ensures Sum(Missings(p, SortedSet(a)), WeightedScoreOf()) == 0.0 ==
            Sum(Missings(p, SortedSet(b)), WeightedScoreOf())
    ensures Sum(Missings(p, SortedSet(a)), WeightOf()) <= Sum(Missings(p, SortedSet(b)), WeightOf())
  {
    MissingScores(p, SortedSet(a));
    MissingScores(p, SortedSet(b));
    SortedSetsInclude(a, b);
    SumMonotone(SortedSet(a), SortedSet(b), TypeWeight(p));
  }

  lemma MeanShrinks(p: Policy, i: Inputs, j: Inputs)
    requires AtLeastAsMuch(i, j)
    ensures 0.0 <= WeightedMean(Details(p, j)) <= WeightedMean(Details(p, i))
  {
    PresentsWorsen(p, i, j);
    MissingGrow(p, i, j);
    MissingWeightGrows(p, MissingTypes(p, i), MissingTypes(p, j));
    MeanOfParts(Presents(p, i), Missings(p, SortedSet(MissingTypes(p, i))),
                Presents(p, j), Missings(p, SortedSet(MissingTypes(p, j))));
  }

  function Rank(c: TrafficLight): nat {
    match c
    case GREEN => 0
    case YELLOW => 1
    case RED => 2
  }

  /** Every detail of `x` has one of the same type in `y` that blocks if it does. */
  ghost predicate Persist(x: seq<Detail>, y: seq<Detail>) {
    forall k :: 0 <= k < |x| ==> Matched(x[k], y)
  }

  ghost predicate Matched(d: Detail, y: seq<Detail>) {
    exists e :: e in y && e.documentType == d.documentType && (Blocking(d) ==> Blocking(e))
  }

  lemma LightOfPersisting(p: Policy, s: real, t: real, x: seq<Detail>, y: seq<Detail>)
    requires Persist(x, y) && t <= s && p.redThreshold < p.yellowThreshold
    ensures Rank(Categorize(p, s, x)) <= Rank(Categorize(p, t, y))
  {
    if d :| d in x && Blocking(d) {
      var k :| 0 <= k < |x| && x[k] == d;
      assert Matched(x[k], y);
    }
    if d :| d in x && d.documentType == "UNKNOWN" {
      var k :| 0 <= k < |x| && x[k] == d;
      assert Matched(x[k], y);
    }
  }

  lemma PresentsPersist(p: Policy, i: Inputs, j: Inputs, n: seq<Detail>)
    requires AtLeastAsMuch(i, j)
    ensures Persist(Presents(p, i), Presents(p, j) + n)
  {
    PresentsWorsen(p, i, j);
    var a, b := Presents(p, i), Presents(p, j);
    forall k | 0 <= k < |a| ensures Matched(a[k], b + n) {
      assert b[k] in b + n;
    }
  }

  lemma MissingsPersist(p: Policy, a: seq<string>, b: seq<string>, y: seq<Detail>)
    requires forall t :: t in a ==> t in b
    ensures Persist(Missings(p, a), y + Missings(p, b))
  {
    forall k | 0 <= k < |a| ensures Matched(Missings(p, a)[k], y + Missings(p, b)) {
      assert a[k] in b;
      var h :| 0 <= h < |b| && b[h] == a[k];
      assert Missings(p, b)[h] in y + Missings(p, b);
    }
  }

  lemma PersistConcat(x: seq<Detail>, m: seq<Detail>, y: seq<Detail>)
    requires Persist(x, y) && Persist(m, y)
    ensures Persist(x + m, y)
  {
  }

  lemma LightWorsens(p: Policy, i: Inputs, j: Inputs)
    requires AtLeastAsMuch(i, j) && p.redThreshold < p.yellowThreshold
    ensures Rank(Categorize(p, WeightedMean(Details(p, i)), Details(p, i))) <=
            Rank(Categorize(p, WeightedMean(Details(p, j)), Details(p, j)))
  {
    MeanShrinks(p, i, j);
    MissingGrow(p, i, j);
    var a, b := SortedSet(MissingTypes(p, i)), SortedSet(MissingTypes(p, j));
    PresentsPersist(p, i, j, Missings(p, b));
    MissingsPersist(p, a, b, Presents(p, j));
    PersistConcat(Presents(p, i), Missings(p, a), Details(p, j));
    LightOfPersisting(p, WeightedMean(Details(p, i)), WeightedMean(Details(p, j)), Details(p, i), Details(p, j));
  }

  /** More results, verifications or findings never raise the bidder score nor
      improve the traffic light, even though they may add expected documents to
      the mean. A light given for nothing to score stays RED when the RED
      threshold is positive, as it is by default. */
  lemma MoreEvidenceNeverImproves(p: Policy, i: Inputs, j: Inputs)
    requires AtLeastAsMuch(i, j)
    requires 0.0 <= p.redThreshold < p.yellowThreshold
    ensures BidderResult(p, j).score <= BidderResult(p, i).score
    ensures p.redThreshold > 0.0 || !NothingToScore(p, i) ==>
              Rank(BidderResult(p, i).category) <= Rank(BidderResult(p, j).category)
    ensures Scorable(p, j) ==> Scorable(p, i)
  {
    hide AtLeastAsMuch, Details, WeightedMean, Categorize, ExpectedTypes, Scorable, Round2, NothingToScore;
    MeanShrinks(p, i, j);
    Round2Monotone(WeightedMean(Details(p, j)), WeightedMean(Details(p, i)));
    LightWorsens(p, i, j);
    MissingGrow(p, i, j);
    NothingScoresZero(p, i);
    if NothingToScore(p, j) {
      NothingToScoreShrinks(p, i, j);
    }
    if Scorable(p, j) {
      ScorableShrinks(p, i, j);
    }
  }

  lemma NothingScoresZero(p: Policy, i: Inputs)
    ensures NothingToScore(p, i) ==> WeightedMean(Details(p, i)) == 0.0 && WeightedMean([]) == 0.0
    ensures NothingToScore(p, i) && p.redThreshold > 0.0 ==> Categorize(p, 0.0, Details(p, i)) == RED
    ensures Round2(0.0) == 0.0
  {
    if NothingToScore(p, i) {
      assert Details(p, i) == [];
    }
  }

  lemma NothingToScoreShrinks(p: Policy, i: Inputs, j: Inputs)
    requires AtLeastAsMuch(i, j) && NothingToScore(p, j)
    ensures NothingToScore(p, i)
  {
    MissingGrow(p, i, j);
  }

  lemma ScorableShrinks(p: Policy, i: Inputs, j: Inputs)
    requires AtLeastAsMuch(i, j) && Scorable(p, j)
    ensures Scorable(p, i)
  {
    forall d | d in i.documents ensures FlagsKnown(p, i, d) {
      FlagsGrow(p, i, j, d);
      assert FlagsKnown(p, j, d);
    }
  }

  // ----- what a score shows, in terms of the inputs -----

  /** Documents of type `t` are expected for the capability. */
  ghost predicate Serves(p: Policy, t: string, capability: string) {
    var key := p.normalizeCapability(capability);
    key in p.required && exists x :: x in p.required[key] && p.normalizeType(x) == t
  }

  ghost function KnownType(p: Policy, given: string): string {
    if p.normalizeType(given) in p.importance then p.normalizeType(given) else "UNKNOWN"
  }

  /** The priority and weight of a type: its own, else those of UNKNOWN, else LOW and a quarter. */
  ghost predicate Ranks(p: Policy, t: string, x: Detail) {
    if p.normalizeType(t) in p.importance then Importance(x.priority, x.weight) == p.importance[p.normalizeType(t)]
    else if "UNKNOWN" in p.importance then Importance(x.priority, x.weight) == p.importance["UNKNOWN"]
    else x.priority == LOW && x.weight == 0.25
  }

  /** The flag was found on the document, or given by a result for its type. */
  ghost predicate FlagOf(p: Policy, i: Inputs, d: Document, f: string) {
    || (exists x :: x in i.findings && x.flagId == f && FoundOn(x, i.evidence, d.documentId))
    || (exists r :: r in i.results && Serves(p, KnownType(p, d.documentType), r.capability) && f in r.flags)
  }

  ghost predicate FoundOn(x: Finding, evidence: seq<Evidence>, id: string) {
    id in x.tracedDocuments || exists e :: e in evidence && e.documentId == id && e.evidenceId in x.evidenceRefs
  }

  /** How many results for type `t` have the status. */
  ghost function Results(p: Policy, t: string, results: seq<ComplianceResult>, s: ComplianceStatus): nat {
    CountIf(results, (r: ComplianceResult) => Serves(p, t, r.capability) && r.status == s)
  }

  ghost function Records(p: Policy, t: string, records: seq<Verification>, s: VerificationStatus): nat {
    CountIf(records, (v: Verification) => Serves(p, t, v.capability) && v.status == s)
  }

  /** How many evidence items the document has, and those with a confidence. */
  ghost function Items(i: Inputs, id: string): nat {
    CountIf(i.evidence, (e: Evidence) => e.documentId == id)
  }

  ghost function Rated(i: Inputs, id: string): nat {
    CountIf(i.evidence, (e: Evidence) => e.documentId == id && e.confidence.Some?)
  }

  ghost function ConfidenceOf(id: string): Evidence -> real {
    (e: Evidence) => if e.documentId == id && e.confidence.Some? then e.confidence.value else 0.0
  }

  ghost predicate HasAverage(i: Inputs, id: string, average: Option<real>) {
    if Rated(i, id) == 0 then average == None
    else average == Some(Round4(Sum(i.evidence, ConfidenceOf(id)) / Rated(i, id) as real))
  }

  ghost predicate IsLow(p: Policy, average: Option<real>) {
    average.Some? && average.value < p.minimumConfidence
  }

  /** What results and verifications of a type cost. */
  ghost function StatusCost(p: Policy, i: Inputs, t: string): real {
    60.0 * Results(p, t, i.results, FAIL) as real
    + 45.0 * Results(p, t, i.results, ComplianceStatus.MISSING) as real
    + 30.0 * Results(p, t, i.results, UNVERIFIABLE) as real
    + 20.0 * (Results(p, t, i.results, WARNING) + Results(p, t, i.results, NOT_CHECKED)) as real
    + RecordCost(p, i.verifications, t)
  }

  ghost function RecordCost(p: Policy, records: seq<Verification>, t: string): real {
    45.0 * (Records(p, t, records, INVALID) + Records(p, t, records, INACTIVE)) as real
    + 40.0 * Records(p, t, records, NOT_FOUND) as real
    + 30.0 * (Records(p, t, records, VerificationStatus.UNAVAILABLE) + Records(p, t, records, ERROR)) as real
  }

  /** What the document costs by itself: evidence, material flags and quality. */
  ghost function OwnCost(p: Policy, i: Inputs, id: string, average: Option<real>, flags: seq<string>): real {
    (if Items(i, id) == 0 then 35.0 else 0.0) + (if IsLow(p, average) then 15.0 else 0.0)
    + 25.0 * CountIf(flags, (f: string) => f in p.material && p.material[f]) as real
    + (if id in i.quality && i.quality[id] == DEGRADED then 15.0 else 0.0)
    + (if id in i.quality && i.quality[id] == QualityState.UNKNOWN then 25.0 else 0.0)
  }

  /** The points of a document, bounded and rounded. */
  ghost predicate Scores(p: Policy, i: Inputs, x: Detail, id: string, points: real) {
    && points == 100.0 - StatusCost(p, i, x.documentType) - OwnCost(p, i, id, x.averageConfidence, x.flags)
    && x.score == Round2(if points < 0.0 then 0.0 else if points > 100.0 then 100.0 else points)
  }

  /** The adverse reasons of a document. */
  ghost predicate IsAdverse(p: Policy, i: Inputs, x: Detail, id: string, reason: Reason) {
    var t := x.documentType;
    match reason
    case NO_EVIDENCE => Items(i, id) == 0
    case UNKNOWN_DOCUMENT_TYPE => t == "UNKNOWN"
    case LOW_EVIDENCE_CONFIDENCE => IsLow(p, x.averageConfidence)
    case COMPLIANCE_FAILED => Results(p, t, i.results, FAIL) > 0
    case COMPLIANCE_MISSING => Results(p, t, i.results, ComplianceStatus.MISSING) > 0
    case COMPLIANCE_UNVERIFIABLE => Results(p, t, i.results, UNVERIFIABLE) > 0
    case COMPLIANCE_WARNING => Results(p, t, i.results, WARNING) > 0
    case VERIFICATION_FAILED =>
      Records(p, t, i.verifications, INVALID) + Records(p, t, i.verifications, INACTIVE)
      + Records(p, t, i.verifications, NOT_FOUND) > 0
    case VERIFICATION_UNAVAILABLE =>
      Records(p, t, i.verifications, VerificationStatus.UNAVAILABLE) + Records(p, t, i.verifications, ERROR) > 0
    case MATERIAL_FINDING => exists f :: f in x.flags && f in p.material && p.material[f]
    case EVIDENCE_QUALITY_DEGRADED => id in i.quality && i.quality[id] == DEGRADED
    case EVIDENCE_QUALITY_UNKNOWN => id in i.quality && i.quality[id] == QualityState.UNKNOWN
    case _ => false
  }

  /** The reasons of a document: the adverse ones, or, without any, at most one
      positive one. */
  ghost predicate Reasons(p: Policy, i: Inputs, x: Detail, id: string, points: real) {
    var good := forall r :: !IsAdverse(p, i, x, id, r);
    && (forall r :: r in x.reasons <==>
          || IsAdverse(p, i, x, id, r)
          || (r == NO_MATERIAL_ISSUES && good && points >= 80.0)
          || (r == Reason.VERIFIED && good && points < 80.0 && Confirmed(p, i, x.documentType)))
  }

  /** Some verification serves the type, and all that do succeeded. */
  ghost predicate Confirmed(p: Policy, i: Inputs, t: string) {
    && (exists v :: v in i.verifications && Serves(p, t, v.capability))
    && (forall v :: v in i.verifications && Serves(p, t, v.capability) ==> v.status == VerificationStatus.VERIFIED)
  }

  /** Everything a detail says about its document. */
  ghost predicate Describes(p: Policy, i: Inputs, d: Document, x: Detail) {
    && x.documentId == Some(d.documentId) && x.sourceType == Some(d.documentType)
    && x.documentType == KnownType(p, d.documentType) && Ranks(p, x.documentType, x)
    && x.evidenceCount == Items(i, d.documentId) && HasAverage(i, d.documentId, x.averageConfidence)
    && StrictlySorted(x.flags) && (forall f :: f in x.flags <==> FlagOf(p, i, d, f))
    && (forall s :: s in x.complianceStatuses <==> Results(p, x.documentType, i.results, s) > 0)
    && (forall s :: s in x.verificationStatuses <==> Records(p, x.documentType, i.verifications, s) > 0)
    && exists points :: Scores(p, i, x, d.documentId, points) && Reasons(p, i, x, d.documentId, points)
  }

  /** Documents of type `t` are expected by an applicable requirement or a result. */
  ghost predicate IsExpected(p: Policy, i: Inputs, t: string) {
    || (exists r, x :: r in i.requirements && r.applicable && Serves(p, x, r.capability) && KnownType(p, x) == t)
    || (exists r, x :: && r in i.results && r.status != NOT_APPLICABLE
                       && Serves(p, x, r.capability) && KnownType(p, x) == t)
  }

  /** A missing document: no evidence, no points. */
  ghost predicate Misses(p: Policy, t: string, x: Detail) {
    && x.documentId.None? && x.sourceType.None? && x.documentType == t && Ranks(p, t, x)
    && x.evidenceCount == 0 && x.averageConfidence.None? && x.complianceStatuses == {} && x.verificationStatuses == {}
    && x.flags == [] && x.reasons == {DOCUMENT_MISSING, NO_EVIDENCE} && x.score == 0.0
  }

  /** The details: the documents in order, then each expected type none of them has. */
  ghost predicate Lists(p: Policy, i: Inputs, details: seq<Detail>) {
    var n := |i.documents|;
    && n <= |details|
    && (forall k :: 0 <= k < n ==> Describes(p, i, i.documents[k], details[k]))
    && (forall k :: n <= k < |details| ==> Misses(p, details[k].documentType, details[k]))
    && (forall j, k :: n <= j < k < |details| ==>
          details[j].documentType != details[k].documentType
          && StrLe(details[j].documentType, details[k].documentType))
    && (forall t :: (exists k :: n <= k < |details| && details[k].documentType == t) <==>
          IsExpected(p, i, t) && forall d :: d in i.documents ==> KnownType(p, d.documentType) != t)
  }

  ghost function Deviation(m: real): Detail -> real {
    (d: Detail) => d.weight * (d.score - m)
  }

  /** The detail alone makes the light RED. */
  ghost predicate Alarms(d: Detail) {
    || MATERIAL_FINDING in d.reasons
    || ((d.priority == CRITICAL || d.priority == HIGH)
        && (DOCUMENT_MISSING in d.reasons || COMPLIANCE_FAILED in d.reasons || COMPLIANCE_MISSING in d.reasons
            || VERIFICATION_FAILED in d.reasons))
  }

  /** The score is the weighted mean `m` of the details, rounded: deviations from it
      cancel out. The light follows from the mean and the details. */
  ghost predicate Summarizes(p: Policy, b: BidderScore, m: real) {
    && Sum(b.details, Deviation(m)) == 0.0 && b.score == Round2(m)
    && (b.category == RED <==> m < p.redThreshold || exists d :: d in b.details && Alarms(d))
    && (b.category == GREEN <==>
          b.category != RED && m >= p.yellowThreshold && forall d :: d in b.details ==> d.documentType != "UNKNOWN")
    && (forall r :: r in b.reasons <==> exists d :: d in b.details && r in d.reasons)
  }

  // ----- the mean -----

  lemma {:induction false} DeviationSum(details: seq<Detail>, m: real)
    ensures Sum(details, Deviation(m)) == Sum(details, WeightedScoreOf()) - m * Sum(details, WeightOf())
  {
    if details != [] {
      DeviationSum(details[1..], m);
      Distribute(details[0].weight, details[0].score, m, Sum(details[1..], WeightOf()));
    }
  }

  lemma Distribute(w: real, s: real, m: real, rest: real)
    ensures w * (s - m) - m * rest == s * w - m * (w + rest)
  {
  }

  lemma MeanIs(details: seq<Detail>)
    requires details != []
    ensures Sum(details, WeightOf()) > 0.0
    ensures WeightedMean(details) == Sum(details, WeightedScoreOf()) / Sum(details, WeightOf())
  {
    ScoredNonNegative(details);
  }

  lemma MeanBalances(details: seq<Detail>)
    requires details != []
    ensures Sum(details, Deviation(WeightedMean(details))) == 0.0
  {
    MeanIs(details);
    DeviationSum(details, WeightedMean(details));
    hide WeightedMean, Sum;
    DividedBack(Sum(details, WeightedScoreOf()), Sum(details, WeightOf()));
  }

  lemma DividedBack(n: real, d: real)
    requires d > 0.0
    ensures n / d * d == n
  {
  }

  lemma ProductSign(w: real, a: real)
    requires w > 0.0
    ensures 0.0 < a ==> 0.0 < w * a
    ensures a < 0.0 ==> w * a < 0.0
  {
  }

  lemma ProductOrder(w: real, a: real, b: real)
    requires w > 0.0 && a < b
    ensures w * a < w * b
  {
  }

  lemma DeviationAt(d: Detail, a: real)
    ensures a < d.score ==> Deviation(a)(d) > 0.0
    ensures d.score < a ==> Deviation(a)(d) < 0.0
  {
    var x := d.score - a;
    ProductSign(d.weight, x);
    assert Deviation(a)(d) == d.weight * x;
  }

  lemma DeviationOrder(d: Detail, a: real, b: real)
    requires a < b
    ensures Deviation(a)(d) > Deviation(b)(d)
  {
    var x, y := d.score - a, d.score - b;
    ProductOrder(d.weight, y, x);
    assert Deviation(a)(d) == d.weight * x && Deviation(b)(d) == d.weight * y;
  }

  lemma {:induction false} DeviationSign(details: seq<Detail>, m: real)
    requires details != []
    ensures (forall d :: d in details ==> m < d.score) ==> Sum(details, Deviation(m)) > 0.0
    ensures (forall d :: d in details ==> d.score < m) ==> Sum(details, Deviation(m)) < 0.0
  {
    hide Deviation;
    var d, rest := details[0], details[1..];
    assert d in details && forall x :: x in rest ==> x in details;
    DeviationAt(d, m);
    if rest != [] {
      DeviationSign(rest, m);
    }
  }

  lemma {:induction false} DeviationDecreases(details: seq<Detail>, a: real, b: real)
    requires details != [] && a < b
    ensures Sum(details, Deviation(a)) > Sum(details, Deviation(b))
  {
    hide Deviation;
    var d, rest := details[0], details[1..];
    DeviationOrder(d, a, b);
    if rest != [] {
      DeviationDecreases(rest, a, b);
    }
  }

  /** The deviations cancel at one point only, which is between the extreme scores. */
  lemma MeanIsBetween(details: seq<Detail>, m: real, least: real, greatest: real)
    requires details != [] && Sum(details, Deviation(m)) == 0.0
    requires forall d :: d in details ==> least <= d.score <= greatest
    ensures least <= m <= greatest
    ensures m == WeightedMean(details)
  {
    var mean := WeightedMean(details);
    MeanBalances(details);
    DeviationSign(details, m);
    if m < mean { DeviationDecreases(details, m, mean); }
    if mean < m { DeviationDecreases(details, mean, m); }
    hide Sum, WeightedMean;
  }

  // ----- one document -----

  lemma ServesIs(p: Policy, t: string, capability: string)
    ensures AppliesTo(p, t, capability) <==> Serves(p, t, capability)
    ensures t in ExpectedFor(p, capability) <==> Serves(p, t, capability)
  {
  }

  lemma {:induction false} CountSome<T>(s: seq<T>, p: T -> bool)
    ensures CountIf(s, p) > 0 <==> exists x :: x in s && p(x)
  {
    if s != [] {
      CountSome(s[1..], p);
      assert forall x :: x in s <==> x == s[0] || x in s[1..];
    }
  }

  lemma {:induction false} ResultCosts(p: Policy, t: string, s: seq<ComplianceResult>)
    ensures Sum(s, ComplianceCost(p, t)) ==
            60.0 * Results(p, t, s, FAIL) as real + 45.0 * Results(p, t, s, ComplianceStatus.MISSING) as real
            + 30.0 * Results(p, t, s, UNVERIFIABLE) as real
            + 20.0 * (Results(p, t, s, WARNING) + Results(p, t, s, NOT_CHECKED)) as real
  {
    hide Serves, AppliesTo;
    if s != [] {
      ResultCosts(p, t, s[1..]);
      ServesIs(p, t, s[0].capability);
    }
  }

  lemma {:induction false} RecordCosts(p: Policy, t: string, s: seq<Verification>)
    ensures Sum(s, VerificationCost(p, t)) == RecordCost(p, s, t)
  {
    hide Serves, AppliesTo;
    if s != [] {
      RecordCosts(p, t, s[1..]);
      ServesIs(p, t, s[0].capability);
    }
  }

  lemma {:induction false} FlagCosts(p: Policy, s: seq<string>)
    ensures Sum(s, FlagCost(p)) == 25.0 * CountIf(s, (f: string) => f in p.material && p.material[f]) as real
  {
    if s != [] {
      FlagCosts(p, s[1..]);
    }
  }

  lemma {:induction false} EvidenceCounts(s: seq<Evidence>, id: string)
    ensures |EvidenceFor(s, id)| == CountIf(s, (e: Evidence) => e.documentId == id)
    ensures |Confidences(EvidenceFor(s, id))| == CountIf(s, (e: Evidence) => e.documentId == id && e.confidence.Some?)
    ensures Sum(Confidences(EvidenceFor(s, id)), (x: real) => x) == Sum(s, ConfidenceOf(id))
  {
    if s != [] {
      EvidenceCounts(s[1..], id);
      if s[0].documentId == id {
        assert ([s[0]] + EvidenceFor(s[1..], id))[1..] == EvidenceFor(s[1..], id);
        if s[0].confidence.Some? {
          var c := s[0].confidence.value;
          assert ([c] + Confidences(EvidenceFor(s[1..], id)))[1..] == Confidences(EvidenceFor(s[1..], id));
        }
      }
    }
  }

  lemma {:induction false} EvidenceMembers(s: seq<Evidence>, id: string)
    ensures forall e :: e in EvidenceFor(s, id) <==> e in s && e.documentId == id
  {
    if s != [] {
      EvidenceMembers(s[1..], id);
      assert forall e :: e in s <==> e == s[0] || e in s[1..];
    }
  }

  lemma AverageIs(i: Inputs, id: string)
    ensures |EvidenceFor(i.evidence, id)| == Items(i, id)
    ensures HasAverage(i, id, AverageConfidence(EvidenceFor(i.evidence, id)))
  {
    EvidenceCounts(i.evidence, id);
  }

  lemma FlagsAre(p: Policy, i: Inputs, d: Document, f: string)
    ensures f in DocumentFlags(p, i, d) <==> FlagOf(p, i, d, f)
  {
    var t := CanonicalType(p, d.documentType);
    EvidenceMembers(i.evidence, d.documentId);
    hide EvidenceFor;
    assert forall x ::
      Touches(x, d.documentId, EvidenceFor(i.evidence, d.documentId)) <==> FoundOn(x, i.evidence, d.documentId);
    hide Touches, FoundOn;
    assert forall c :: AppliesTo(p, t, c) <==> Serves(p, t, c) by {
      forall c ensures AppliesTo(p, t, c) <==> Serves(p, t, c) { ServesIs(p, t, c); }
    }
    hide AppliesTo, Serves;
  }

  lemma UnknownFlag(p: Policy, i: Inputs, d: Document)
    ensures FlagsKnown(p, i, d) <==> !exists f :: FlagOf(p, i, d, f) && f !in p.material
  {
    hide DocumentFlags, FlagOf;
    forall f ensures f in DocumentFlags(p, i, d) <==> FlagOf(p, i, d, f) { FlagsAre(p, i, d, f); }
  }

  lemma RanksIs(p: Policy, t: string, x: Detail)
    requires x.priority == ImportanceFor(p, t).priority && x.weight == ImportanceFor(p, t).weight
    ensures Ranks(p, t, x)
  {
  }

  /** The fields of a detail. */
  lemma DetailFields(p: Policy, i: Inputs, d: Document)
    ensures var x, t := DocumentDetail(p, i, d), CanonicalType(p, d.documentType);
            && x.documentId == Some(d.documentId) && x.sourceType == Some(d.documentType) && x.documentType == t
            && x.priority == ImportanceFor(p, t).priority && x.weight == ImportanceFor(p, t).weight
            && x.evidenceCount == |EvidenceFor(i.evidence, d.documentId)|
            && x.averageConfidence == AverageConfidence(EvidenceFor(i.evidence, d.documentId))
            && x.flags == SortedSet(DocumentFlags(p, i, d))
            && x.reasons == WithPositive(AdverseReasons(p, i, d), Points(p, i, d), AllVerified(p, t, i.verifications))
            && x.score == RoundedScore(Points(p, i, d))
    ensures var x, t := DocumentDetail(p, i, d), CanonicalType(p, d.documentType);
            && (forall s :: s in x.complianceStatuses <==>
                              exists r :: r in i.results && AppliesTo(p, t, r.capability) && r.status == s)
            && (forall s :: s in x.verificationStatuses <==>
                              exists v :: v in i.verifications && AppliesTo(p, t, v.capability) && v.status == s)
  {
    hide CanonicalType, ImportanceFor, EvidenceFor, AverageConfidence, SortedSet, DocumentFlags, WithPositive;
    hide AdverseReasons, Points, AllVerified, RoundedScore, AppliesTo;
  }

  lemma PointsAre(p: Policy, i: Inputs, d: Document)
    ensures Scores(p, i, DocumentDetail(p, i, d), d.documentId, Points(p, i, d))
  {
    var t, flags := CanonicalType(p, d.documentType), SortedSet(DocumentFlags(p, i, d));
    DetailFields(p, i, d);
    hide DocumentDetail, CanonicalType, DocumentFlags, SortedSet, Serves, AppliesTo, CountIf, Sum;
    ResultCosts(p, t, i.results);
    RecordCosts(p, t, i.verifications);
    FlagCosts(p, flags);
    AverageIs(i, d.documentId);
    hide EvidenceFor, AverageConfidence, HasAverage, RecordCost, Round2;
    hide Results, Records, AdverseReasons, WithPositive;
  }

  lemma ComplianceReasonIs(p: Policy, i: Inputs, t: string, x: Reason, s: ComplianceStatus)
    requires forall z :: x in ComplianceReason(z) <==> z == s
    ensures x in ComplianceReasons(p, t, i.results) <==> Results(p, t, i.results, s) > 0
  {
    ResultsSome(p, i, t, s);
    hide Results, AppliesTo, ComplianceReason;
    if x in ComplianceReasons(p, t, i.results) {
      var r :| r in i.results && AppliesTo(p, t, r.capability) && x in ComplianceReason(r.status);
    }
    if r :| r in i.results && AppliesTo(p, t, r.capability) && r.status == s {
      assert x in ComplianceReason(r.status);
    }
  }

  lemma ResultsSome(p: Policy, i: Inputs, t: string, s: ComplianceStatus)
    ensures Results(p, t, i.results, s) > 0 <==>
            exists r :: r in i.results && AppliesTo(p, t, r.capability) && r.status == s
  {
    forall c ensures AppliesTo(p, t, c) <==> Serves(p, t, c) { ServesIs(p, t, c); }
    hide AppliesTo, Serves, CountIf;
    CountSome(i.results, (r: ComplianceResult) => Serves(p, t, r.capability) && r.status == s);
  }

  lemma RecordsSome(p: Policy, i: Inputs, t: string, s: VerificationStatus)
    ensures Records(p, t, i.verifications, s) > 0 <==>
            exists v :: v in i.verifications && AppliesTo(p, t, v.capability) && v.status == s
  {
    forall c ensures AppliesTo(p, t, c) <==> Serves(p, t, c) { ServesIs(p, t, c); }
    hide AppliesTo, Serves, CountIf;
    CountSome(i.verifications, (v: Verification) => Serves(p, t, v.capability) && v.status == s);
  }

  lemma RecordReasonIs(p: Policy, i: Inputs, t: string, x: Reason, s: VerificationStatus)
    requires x in VerificationReason(s) && Records(p, t, i.verifications, s) > 0
    ensures x in VerificationReasons(p, t, i.verifications)
  {
    RecordsSome(p, i, t, s);
    hide Records, AppliesTo, VerificationReason;
    var v :| v in i.verifications && AppliesTo(p, t, v.capability) && v.status == s;
    assert x in VerificationReason(v.status);
  }

  lemma RecordReasonFrom(p: Policy, i: Inputs, t: string, x: Reason) returns (s: VerificationStatus)
    requires x in VerificationReasons(p, t, i.verifications)
    ensures x in VerificationReason(s) && Records(p, t, i.verifications, s) > 0
  {
    hide Records, AppliesTo, VerificationReason;
    var v :| v in i.verifications && AppliesTo(p, t, v.capability) && x in VerificationReason(v.status);
    s := v.status;
    RecordsSome(p, i, t, s);
  }

  lemma FailedIs(p: Policy, i: Inputs, t: string)
    ensures VERIFICATION_FAILED in VerificationReasons(p, t, i.verifications) <==>
            Records(p, t, i.verifications, INVALID) + Records(p, t, i.verifications, INACTIVE)
            + Records(p, t, i.verifications, NOT_FOUND) > 0
  {
    hide Records, VerificationReasons;
    if VERIFICATION_FAILED in VerificationReasons(p, t, i.verifications) {
      var s := RecordReasonFrom(p, i, t, VERIFICATION_FAILED);
    }
    if Records(p, t, i.verifications, INVALID) > 0 { RecordReasonIs(p, i, t, VERIFICATION_FAILED, INVALID); }
    if Records(p, t, i.verifications, INACTIVE) > 0 { RecordReasonIs(p, i, t, VERIFICATION_FAILED, INACTIVE); }
    if Records(p, t, i.verifications, NOT_FOUND) > 0 { RecordReasonIs(p, i, t, VERIFICATION_FAILED, NOT_FOUND); }
  }

  lemma UnavailableIs(p: Policy, i: Inputs, t: string)
    ensures VERIFICATION_UNAVAILABLE in VerificationReasons(p, t, i.verifications) <==>
            Records(p, t, i.verifications, VerificationStatus.UNAVAILABLE) + Records(p, t, i.verifications, ERROR) > 0
  {
    hide Records, VerificationReasons;
    var x, down := VERIFICATION_UNAVAILABLE, VerificationStatus.UNAVAILABLE;
    if x in VerificationReasons(p, t, i.verifications) {
      var s := RecordReasonFrom(p, i, t, x);
    }
    if Records(p, t, i.verifications, down) > 0 { RecordReasonIs(p, i, t, x, down); }
    if Records(p, t, i.verifications, ERROR) > 0 { RecordReasonIs(p, i, t, x, ERROR); }
  }

  /** The five sources of adverse reasons, apart. */
  lemma AdverseParts(p: Policy, i: Inputs, d: Document, r: Reason)
    ensures var t, evidence := CanonicalType(p, d.documentType), EvidenceFor(i.evidence, d.documentId);
            r in AdverseReasons(p, i, d) <==>
            || r in EvidenceReasons(p, t, evidence) || r in ComplianceReasons(p, t, i.results)
            || r in VerificationReasons(p, t, i.verifications)
            || r in MaterialReasons(p, SortedSet(DocumentFlags(p, i, d))) || r in QualityReasons(QualityOf(i, d))
  {
    hide CanonicalType, EvidenceFor, EvidenceReasons, ComplianceReasons, VerificationReasons, MaterialReasons;
    hide QualityReasons, QualityOf, SortedSet, DocumentFlags;
  }

  lemma KindsOfReasons(p: Policy, t: string, evidence: seq<Evidence>, results: seq<ComplianceResult>,
                       records: seq<Verification>, flags: seq<string>, q: Option<QualityState>, r: Reason)
    ensures r in EvidenceReasons(p, t, evidence) <==>
            || (r == NO_EVIDENCE && evidence == []) || (r == UNKNOWN_DOCUMENT_TYPE && t == "UNKNOWN")
            || (r == LOW_EVIDENCE_CONFIDENCE && LowConfidence(p, evidence))
    ensures r in ComplianceReasons(p, t, results) ==>
              r in {COMPLIANCE_FAILED, COMPLIANCE_MISSING, COMPLIANCE_UNVERIFIABLE, COMPLIANCE_WARNING}
    ensures r in VerificationReasons(p, t, records) ==> r in {VERIFICATION_FAILED, VERIFICATION_UNAVAILABLE}
    ensures r in MaterialReasons(p, flags) <==> r == MATERIAL_FINDING && exists f :: f in flags && IsMaterial(p, f)
    ensures r in QualityReasons(q) <==>
            || (r == EVIDENCE_QUALITY_DEGRADED && q == Some(DEGRADED))
            || (r == EVIDENCE_QUALITY_UNKNOWN && q == Some(QualityState.UNKNOWN))
  {
    hide LowConfidence, IsMaterial, AppliesTo;
  }

  /** The reasons from the five sources are the adverse ones of a detail with such fields. */
  lemma SourcesAreAdverse(p: Policy, i: Inputs, x: Detail, id: string, evidence: seq<Evidence>, q: Option<QualityState>,
                          r: Reason)
    requires |evidence| == Items(i, id) && x.averageConfidence == AverageConfidence(evidence)
    requires q == if id in i.quality then Some(i.quality[id]) else None
    ensures IsAdverse(p, i, x, id, r) <==>
            || r in EvidenceReasons(p, x.documentType, evidence) || r in ComplianceReasons(p, x.documentType, i.results)
            || r in VerificationReasons(p, x.documentType, i.verifications)
            || r in MaterialReasons(p, x.flags) || r in QualityReasons(q)
  {
    KindsOfReasons(p, x.documentType, evidence, i.results, i.verifications, x.flags, q, r);
    if r in {COMPLIANCE_FAILED, COMPLIANCE_MISSING, COMPLIANCE_UNVERIFIABLE, COMPLIANCE_WARNING, VERIFICATION_FAILED,
             VERIFICATION_UNAVAILABLE} {
      StatusReasonsAreAdverse(p, i, x, id, r);
    }
    hide EvidenceReasons, ComplianceReasons, VerificationReasons, MaterialReasons, QualityReasons, AverageConfidence;
    hide Results, Records, Items;
  }

  lemma StatusReasonsAreAdverse(p: Policy, i: Inputs, x: Detail, id: string, r: Reason)
    requires r in {COMPLIANCE_FAILED, COMPLIANCE_MISSING, COMPLIANCE_UNVERIFIABLE, COMPLIANCE_WARNING,
                   VERIFICATION_FAILED, VERIFICATION_UNAVAILABLE}
    ensures IsAdverse(p, i, x, id, r) <==>
            || r in ComplianceReasons(p, x.documentType, i.results)
            || r in VerificationReasons(p, x.documentType, i.verifications)
  {
    var t := x.documentType;
    KindsOfReasons(p, t, [], i.results, i.verifications, [], None, r);
    match r
    case COMPLIANCE_FAILED => ComplianceReasonIs(p, i, t, r, FAIL);
    case COMPLIANCE_MISSING => ComplianceReasonIs(p, i, t, r, ComplianceStatus.MISSING);
    case COMPLIANCE_UNVERIFIABLE => ComplianceReasonIs(p, i, t, r, UNVERIFIABLE);
    case COMPLIANCE_WARNING => ComplianceReasonIs(p, i, t, r, WARNING);
    case VERIFICATION_FAILED => FailedIs(p, i, t);
    case VERIFICATION_UNAVAILABLE => UnavailableIs(p, i, t);
    hide ComplianceReasons, VerificationReasons, Results, Records;
  }

  lemma AdverseAre(p: Policy, i: Inputs, d: Document, r: Reason)
    ensures r in AdverseReasons(p, i, d) <==> IsAdverse(p, i, DocumentDetail(p, i, d), d.documentId, r)
  {
    DetailFields(p, i, d);
    AdverseParts(p, i, d, r);
    AverageIs(i, d.documentId);
    hide DocumentDetail, CanonicalType, EvidenceFor, SortedSet, DocumentFlags, AdverseReasons, EvidenceReasons;
    hide ComplianceReasons, VerificationReasons, MaterialReasons, QualityReasons, AverageConfidence, HasAverage;
    hide Results, Records, Items, WithPositive, Points, RoundedScore, ImportanceFor, AllVerified, AppliesTo, IsAdverse;
    hide StrLe;
    SourcesAreAdverse(p, i, DocumentDetail(p, i, d), d.documentId, EvidenceFor(i.evidence, d.documentId),
                      QualityOf(i, d), r);
  }

  lemma ConfirmedIs(p: Policy, i: Inputs, t: string)
    ensures AllVerified(p, t, i.verifications) <==> Confirmed(p, i, t)
  {
    forall c ensures AppliesTo(p, t, c) <==> Serves(p, t, c) { ServesIs(p, t, c); }
    hide AppliesTo, Serves;
  }

  lemma PositiveIs(adverse: set<Reason>, points: real, allVerified: bool, r: Reason)
    requires NO_MATERIAL_ISSUES !in adverse && Reason.VERIFIED !in adverse
    ensures r in WithPositive(adverse, points, allVerified) <==>
            || r in adverse
            || (r == NO_MATERIAL_ISSUES && adverse == {} && points >= 80.0)
            || (r == Reason.VERIFIED && adverse == {} && points < 80.0 && allVerified)
  {
    if adverse == {} && points >= 80.0 {
      assert NO_MATERIAL_ISSUES in adverse + {NO_MATERIAL_ISSUES};
    }
  }

  lemma ReasonsAre(p: Policy, i: Inputs, d: Document)
    ensures Reasons(p, i, DocumentDetail(p, i, d), d.documentId, Points(p, i, d))
  {
    var t := CanonicalType(p, d.documentType);
    forall r ensures r in AdverseReasons(p, i, d) <==> IsAdverse(p, i, DocumentDetail(p, i, d), d.documentId, r) {
      AdverseAre(p, i, d, r);
    }
    DetailFields(p, i, d);
    ConfirmedIs(p, i, t);
    hide DocumentDetail, AdverseReasons, IsAdverse, Points, AllVerified, Confirmed, CanonicalType, WithPositive,
        Reasons;
    hide ImportanceFor, EvidenceFor, SortedSet, DocumentFlags, RoundedScore, AppliesTo, StrLe, AverageConfidence;
    ReasonsFrom(p, i, DocumentDetail(p, i, d), d.documentId, AdverseReasons(p, i, d), Points(p, i, d));
  }

  lemma ReasonsFrom(p: Policy, i: Inputs, x: Detail, id: string, adverse: set<Reason>, points: real)
    requires forall r :: r in adverse <==> IsAdverse(p, i, x, id, r)
    requires x.reasons == WithPositive(adverse, points, Confirmed(p, i, x.documentType))
    ensures Reasons(p, i, x, id, points)
  {
    assert !IsAdverse(p, i, x, id, NO_MATERIAL_ISSUES) && !IsAdverse(p, i, x, id, Reason.VERIFIED);
    hide IsAdverse, Confirmed, WithPositive;
    NothingIn(p, i, x, id, adverse);
    forall r ensures r in x.reasons <==>
                     || r in adverse
                     || (r == NO_MATERIAL_ISSUES && adverse == {} && points >= 80.0)
                     || (r == Reason.VERIFIED && adverse == {} && points < 80.0 && Confirmed(p, i, x.documentType)) {
      PositiveIs(adverse, points, Confirmed(p, i, x.documentType), r);
    }
  }

  lemma NothingIn(p: Policy, i: Inputs, x: Detail, id: string, adverse: set<Reason>)
    requires forall r :: r in adverse <==> IsAdverse(p, i, x, id, r)
    ensures adverse == {} <==> forall r :: !IsAdverse(p, i, x, id, r)
  {
    hide IsAdverse;
    if adverse != {} {
      var r :| r in adverse;
    }
  }

  lemma DetailFlags(p: Policy, i: Inputs, d: Document)
    ensures StrictlySorted(DocumentDetail(p, i, d).flags)
    ensures forall f :: f in DocumentDetail(p, i, d).flags <==> FlagOf(p, i, d, f)
  {
    forall f ensures f in DocumentFlags(p, i, d) <==> FlagOf(p, i, d, f) { FlagsAre(p, i, d, f); }
    hide DocumentFlags, FlagOf, Points, AdverseReasons, AllVerified, ImportanceFor, EvidenceFor, AverageConfidence;
    hide CanonicalType, WithPositive, RoundedScore, StrLe, AppliesTo;
  }

  lemma DetailStatuses(p: Policy, i: Inputs, d: Document)
    ensures var x := DocumentDetail(p, i, d);
            && (forall s :: s in x.complianceStatuses <==> Results(p, x.documentType, i.results, s) > 0)
            && (forall s :: s in x.verificationStatuses <==> Records(p, x.documentType, i.verifications, s) > 0)
  {
    var x := DocumentDetail(p, i, d);
    var t := CanonicalType(p, d.documentType);
    DetailFields(p, i, d);
    hide DocumentDetail, Results, Records, AppliesTo, DocumentFlags, SortedSet, Points, AdverseReasons, ImportanceFor;
    hide EvidenceFor, AverageConfidence, WithPositive, RoundedScore, AllVerified, StrLe, CanonicalType;
    forall s ensures s in x.complianceStatuses <==> Results(p, t, i.results, s) > 0 { ResultsSome(p, i, t, s); }
    forall s ensures s in x.verificationStatuses <==> Records(p, t, i.verifications, s) > 0 { RecordsSome(p, i, t, s); }
  }

  lemma DetailIdentity(p: Policy, i: Inputs, d: Document)
    ensures var x := DocumentDetail(p, i, d);
            && x.documentId == Some(d.documentId) && x.sourceType == Some(d.documentType)
            && x.documentType == KnownType(p, d.documentType) && Ranks(p, x.documentType, x)
            && x.evidenceCount == Items(i, d.documentId) && HasAverage(i, d.documentId, x.averageConfidence)
  {
    DetailFields(p, i, d);
    AverageIs(i, d.documentId);
    RanksIs(p, CanonicalType(p, d.documentType), DocumentDetail(p, i, d));
    hide DocumentDetail, SortedSet, DocumentFlags, Points, AdverseReasons, ImportanceFor, EvidenceFor, HasAverage;
    hide AverageConfidence, WithPositive, RoundedScore, AllVerified, StrLe, AppliesTo, Ranks, Items;
  }

  lemma DetailDescribes(p: Policy, i: Inputs, d: Document)
    ensures Describes(p, i, d, DocumentDetail(p, i, d))
  {
    hide DocumentDetail, Scores, Reasons, Ranks, HasAverage, Items, Results, Records, FlagOf, Points, KnownType, StrLe;
    DetailIdentity(p, i, d);
    DetailFlags(p, i, d);
    DetailStatuses(p, i, d);
    PointsAre(p, i, d);
    ReasonsAre(p, i, d);
  }

  // ----- the whole score -----

  lemma ExpectedAre(p: Policy, i: Inputs, t: string)
    ensures t in ExpectedTypes(p, i) <==> IsExpected(p, i, t)
  {
    forall x, c ensures x in ExpectedFor(p, c) <==> Serves(p, x, c) { ServesIs(p, x, c); }
    hide ExpectedFor, Serves;
    if t in ExpectedTypes(p, i) {
      ExpectedFrom(p, i, t);
    }
    if r, x :| r in i.requirements && r.applicable && Serves(p, x, r.capability) && KnownType(p, x) == t {
      assert x in ExpectedFor(p, r.capability) && CanonicalType(p, x) == t;
    }
    if r, x :| r in i.results && r.status != NOT_APPLICABLE && Serves(p, x, r.capability) && KnownType(p, x) == t {
      assert x in ExpectedFor(p, r.capability) && CanonicalType(p, x) == t;
    }
  }

  lemma ExpectedFrom(p: Policy, i: Inputs, t: string)
    requires t in ExpectedTypes(p, i)
    ensures IsExpected(p, i, t)
  {
    forall x, c ensures x in ExpectedFor(p, c) <==> Serves(p, x, c) { ServesIs(p, x, c); }
    hide ExpectedFor, Serves;
    if r, x :| r in i.requirements && r.applicable && x in ExpectedFor(p, r.capability) && CanonicalType(p, x) == t {
      assert Serves(p, x, r.capability) && KnownType(p, x) == t;
    } else {
      var r, x :| r in i.results && r.status != NOT_APPLICABLE && x in ExpectedFor(p, r.capability)
          && CanonicalType(p, x) == t;
      assert Serves(p, x, r.capability) && KnownType(p, x) == t;
    }
  }

  lemma MissingDescribes(p: Policy, t: string)
    ensures Misses(p, t, MissingDetail(p, t))
  {
    RanksIs(p, t, MissingDetail(p, t));
  }

  lemma MissingTypesAre(p: Policy, i: Inputs, t: string)
    ensures t in SortedSet(MissingTypes(p, i)) <==>
            IsExpected(p, i, t) && forall d :: d in i.documents ==> KnownType(p, d.documentType) != t
  {
    ExpectedAre(p, i, t);
    hide ExpectedTypes, IsExpected;
    if d :| d in i.documents && KnownType(p, d.documentType) == t {
      assert CanonicalType(p, d.documentType) == t;
    }
  }

  lemma DetailAt(p: Policy, i: Inputs, k: nat)
    requires k < |Details(p, i)|
    ensures var types, n := SortedSet(MissingTypes(p, i)), |i.documents|;
            && |Details(p, i)| == n + |types|
            && if k < n then Details(p, i)[k] == DocumentDetail(p, i, i.documents[k])
               else Details(p, i)[k] == MissingDetail(p, types[k - n])
  {
    hide SortedSet, MissingTypes, DocumentDetail, MissingDetail;
  }

  lemma DetailCount(p: Policy, i: Inputs)
    ensures |Details(p, i)| == |i.documents| + |SortedSet(MissingTypes(p, i))|
  {
    hide SortedSet, MissingTypes, DocumentDetail, MissingDetail;
  }

  lemma PresentLine(p: Policy, i: Inputs, k: nat)
    requires k < |i.documents| && k < |Details(p, i)|
    ensures Describes(p, i, i.documents[k], Details(p, i)[k])
  {
    DetailAt(p, i, k);
    DetailDescribes(p, i, i.documents[k]);
    hide Details, Describes, DocumentDetail, SortedSet, MissingTypes;
  }

  lemma MissingLine(p: Policy, i: Inputs, types: seq<string>, k: nat)
    requires types == SortedSet(MissingTypes(p, i)) && k < |types|
    ensures |i.documents| + k < |Details(p, i)|
    ensures var x := Details(p, i)[|i.documents| + k]; x.documentType == types[k] && Misses(p, types[k], x)
  {
    DetailCount(p, i);
    DetailAt(p, i, |i.documents| + k);
    MissingDescribes(p, types[k]);
    MissingType(p, types[k]);
    hide Details, Misses, MissingDetail, SortedSet, MissingTypes, StrLe;
  }

  lemma DetailsAre(p: Policy, i: Inputs)
    ensures Lists(p, i, Details(p, i))
  {
    hide Details, MissingTypes, IsExpected, Describes, Misses, DocumentDetail, MissingDetail, StrLe, KnownType, Lists;
    hide SortedSet;
    var types := SortedSet(MissingTypes(p, i));
    DetailCount(p, i);
    forall t ensures t in types <==>
                     IsExpected(p, i, t) && forall d :: d in i.documents ==> KnownType(p, d.documentType) != t {
      MissingTypesAre(p, i, t);
    }
    forall k | 0 <= k < |i.documents|
      ensures Describes(p, i, i.documents[k], Details(p, i)[k])
    {
      PresentLine(p, i, k);
    }
    forall k | 0 <= k < |types|
      ensures var x := Details(p, i)[|i.documents| + k]; x.documentType == types[k] && Misses(p, types[k], x)
    {
      MissingLine(p, i, types, k);
    }
    ListsFrom(p, i, Details(p, i), types);
  }

  lemma ListsFrom(p: Policy, i: Inputs, details: seq<Detail>, types: seq<string>)
    requires |details| == |i.documents| + |types| && StrictlySorted(types)
    requires forall k :: 0 <= k < |i.documents| ==> Describes(p, i, i.documents[k], details[k])
    requires forall k :: 0 <= k < |types| ==>
               details[|i.documents| + k].documentType == types[k] && Misses(p, types[k], details[|i.documents| + k])
    requires forall t :: t in types <==>
               IsExpected(p, i, t) && forall d :: d in i.documents ==> KnownType(p, d.documentType) != t
    ensures Lists(p, i, details)
  {
    hide IsExpected, Describes, Misses, StrLe, KnownType;
    var n := |i.documents|;
    forall k | n <= k < |details|
      ensures details[k].documentType == types[k - n] && Misses(p, types[k - n], details[k])
    {
      assert details[n + (k - n)] == details[k];
    }
    TypesListed(details, n, types);
  }

  lemma TypesListed(details: seq<Detail>, n: nat, types: seq<string>)
    requires |details| == n + |types|
    requires forall k :: n <= k < |details| ==> details[k].documentType == types[k - n]
    ensures forall t :: t in types <==> exists k :: n <= k < |details| && details[k].documentType == t
  {
    forall t | t in types ensures exists k :: n <= k < |details| && details[k].documentType == t {
      var j :| 0 <= j < |types| && types[j] == t;
      assert details[n + j].documentType == t;
    }
  }

  lemma MissingType(p: Policy, t: string)
    ensures MissingDetail(p, t).documentType == t
  {
  }

  lemma LightIs(p: Policy, b: BidderScore, m: real)
    requires b.details != [] && m == WeightedMean(b.details)
    requires b.score == Round2(m) && b.category == Categorize(p, m, b.details) && b.reasons == AllReasons(b.details)
    ensures Summarizes(p, b, m)
  {
    MeanBalances(b.details);
    forall d ensures Blocking(d) <==> Alarms(d) { BlockingAlarms(d); }
    hide WeightedMean, Blocking, Alarms, Sum, Round2;
  }

  lemma BlockingAlarms(d: Detail)
    ensures Blocking(d) <==> Alarms(d)
  {
    var stops := {DOCUMENT_MISSING, COMPLIANCE_FAILED, COMPLIANCE_MISSING, VERIFICATION_FAILED};
    if r :| r in stops && r in d.reasons {
      assert r in d.reasons * stops;
    }
  }

  lemma ScoreDescribes(p: Policy, i: Inputs)
    ensures Scorable(p, i) <==> !exists d, f :: d in i.documents && FlagOf(p, i, d, f) && f !in p.material
    ensures NothingToScore(p, i) <==> i.documents == [] && forall t :: !IsExpected(p, i, t)
    ensures NothingToScore(p, i) ==> BidderResult(p, i) == BidderScore(0.0, RED, [], {DOCUMENT_MISSING})
    ensures !NothingToScore(p, i) ==>
              Lists(p, i, BidderResult(p, i).details) && exists m :: Summarizes(p, BidderResult(p, i), m)
  {
    WhenScorable(p, i);
    WhenNothing(p, i);
    if !NothingToScore(p, i) {
      DetailsAre(p, i);
      SomeDetail(p, i);
      hide Lists, Details, Summarizes, FlagOf, Scorable, NothingToScore, IsExpected, WeightedMean, Categorize,
          AllReasons;
      LightIs(p, BidderResult(p, i), WeightedMean(Details(p, i)));
    }
  }

  lemma WhenScorable(p: Policy, i: Inputs)
    ensures Scorable(p, i) <==> !exists d, f :: d in i.documents && FlagOf(p, i, d, f) && f !in p.material
  {
    forall d
      ensures FlagsKnown(p, i, d) <==> !exists f :: FlagOf(p, i, d, f) && f !in p.material
    {
      UnknownFlag(p, i, d);
    }
    hide FlagsKnown, FlagOf;
  }

  lemma WhenNothing(p: Policy, i: Inputs)
    ensures NothingToScore(p, i) <==> i.documents == [] && forall t :: !IsExpected(p, i, t)
  {
    forall t ensures t in ExpectedTypes(p, i) <==> IsExpected(p, i, t) { ExpectedAre(p, i, t); }
    hide ExpectedTypes, IsExpected;
  }

  lemma SomeDetail(p: Policy, i: Inputs)
    requires !NothingToScore(p, i)
    ensures Details(p, i) != []
  {
    hide ExpectedTypes, DocumentDetail, MissingDetail;
    if i.documents == [] {
      var t :| t in ExpectedTypes(p, i);
      assert t in SortedSet(MissingTypes(p, i));
    }
  }

  // ----- when VERIFIED is reported -----

  /** The results a document is charged for without a reason. */
  function Unchecked(p: Policy, t: string, results: seq<ComplianceResult>): nat {
    if results == [] then 0
    else
      var r, rest := results[0], Unchecked(p, t, results[1..]);
      if AppliesTo(p, t, r.capability) && r.status == NOT_CHECKED then rest + 1 else rest
  }

  lemma {:induction false} ReasonlessCompliance(p: Policy, t: string, results: seq<ComplianceResult>)
    requires ComplianceReasons(p, t, results) == {}
    ensures Sum(results, ComplianceCost(p, t)) == 20.0 * Unchecked(p, t, results) as real
  {
    hide AppliesTo;
    if results != [] {
      var r, rest := results[0], results[1..];
      assert forall x :: x in rest ==> x in results;
      assert forall x :: x in ComplianceReasons(p, t, rest) ==> x in ComplianceReasons(p, t, results);
      ReasonlessCompliance(p, t, rest);
      if AppliesTo(p, t, r.capability) {
        assert r in results;
        assert forall x :: x in ComplianceReason(r.status) ==> x in ComplianceReasons(p, t, results);
        OnlyUncheckedIsSilent(r.status);
      }
    }
  }

  lemma OnlyUncheckedIsSilent(s: ComplianceStatus)
    requires forall x :: x !in ComplianceReason(s)
    ensures ComplianceDeduction(s) == if s == NOT_CHECKED then 20.0 else 0.0
  {
    assert s == FAIL ==> COMPLIANCE_FAILED in ComplianceReason(s);
    assert s == MISSING ==> COMPLIANCE_MISSING in ComplianceReason(s);
    assert s == UNVERIFIABLE ==> COMPLIANCE_UNVERIFIABLE in ComplianceReason(s);
    assert s == WARNING ==> COMPLIANCE_WARNING in ComplianceReason(s);
  }

  lemma {:induction false} FreeSum<T>(s: seq<T>, f: T -> real)
    requires forall x :: x in s ==> f(x) == 0.0
    ensures Sum(s, f) == 0.0
  {
    if s != [] {
      assert s[0] in s;
      FreeSum(s[1..], f);
    }
  }

  /** Without a reason, points are lost only by unchecked requirements. */
  lemma ReasonlessPoints(p: Policy, i: Inputs, d: Document)
    requires AdverseReasons(p, i, d) == {}
    ensures Points(p, i, d) == 100.0 - 20.0 * Unchecked(p, CanonicalType(p, d.documentType), i.results) as real
  {
    var t, evidence := CanonicalType(p, d.documentType), EvidenceFor(i.evidence, d.documentId);
    var flags, q := SortedSet(DocumentFlags(p, i, d)), QualityOf(i, d);
    hide CanonicalType, EvidenceFor, DocumentFlags, SortedSet, QualityOf, LowConfidence, AppliesTo, Sum;
    NoReasonInParts(EvidenceReasons(p, t, evidence), ComplianceReasons(p, t, i.results),
                    VerificationReasons(p, t, i.verifications),
                    MaterialReasons(p, flags), QualityReasons(q));
    ReasonlessEvidence(p, t, evidence, q);
    ReasonlessCompliance(p, t, i.results);
    forall v | v in i.verifications ensures VerificationCost(p, t)(v) == 0.0 {
      ReasonlessVerification(p, t, i.verifications, v);
    }
    FreeSum(i.verifications, VerificationCost(p, t));
    forall f | f in flags ensures FlagCost(p)(f) == 0.0 {
      assert MATERIAL_FINDING !in MaterialReasons(p, flags);
    }
    FreeSum(flags, FlagCost(p));
  }

  lemma NoReasonInParts(a: set<Reason>, b: set<Reason>, c: set<Reason>, d: set<Reason>, e: set<Reason>)
    requires a + b + c + d + e == {}
    ensures a == {} && b == {} && c == {} && d == {} && e == {}
  {
  }

  lemma ReasonlessEvidence(p: Policy, t: string, evidence: seq<Evidence>, q: Option<QualityState>)
    requires EvidenceReasons(p, t, evidence) == {} && QualityReasons(q) == {}
    ensures EvidenceDeduction(p, evidence) == 0.0 && QualityDeduction(q) == 0.0
  {
    hide LowConfidence;
    assert NO_EVIDENCE !in EvidenceReasons(p, t, evidence);
    assert LOW_EVIDENCE_CONFIDENCE !in EvidenceReasons(p, t, evidence);
    assert EVIDENCE_QUALITY_DEGRADED !in QualityReasons(q) && EVIDENCE_QUALITY_UNKNOWN !in QualityReasons(q);
  }

  lemma ReasonlessVerification(p: Policy, t: string, records: seq<Verification>, v: Verification)
    requires VerificationReasons(p, t, records) == {} && v in records
    ensures VerificationCost(p, t)(v) == 0.0
  {
    hide AppliesTo;
    if AppliesTo(p, t, v.capability) {
      assert forall x :: x in VerificationReason(v.status) ==> x in VerificationReasons(p, t, records);
      assert VERIFICATION_UNAVAILABLE !in VerificationReason(v.status)
             && VERIFICATION_FAILED !in VerificationReason(v.status);
    }
  }

  /** VERIFIED is reported of a document exactly when nothing adverse is, its
      verifications all succeeded, and at least two of its requirements were not
      checked: those cost points but give no reason. */
  lemma VerifiedNeedsUnchecked(p: Policy, i: Inputs, d: Document)
    ensures var t := CanonicalType(p, d.documentType);
            Reason.VERIFIED in DocumentDetail(p, i, d).reasons <==>
            AdverseReasons(p, i, d) == {} && AllVerified(p, t, i.verifications) && Unchecked(p, t, i.results) >= 2
  {
    var t, reasons := CanonicalType(p, d.documentType), AdverseReasons(p, i, d);
    NeverAdverse(p, i, d);
    if reasons == {} {
      ReasonlessPoints(p, i, d);
    }
    hide AdverseReasons, Points, CanonicalType, AllVerified, Unchecked, DocumentFlags, EvidenceFor;
    PositiveReason(reasons, Points(p, i, d), AllVerified(p, t, i.verifications));
  }

  lemma PositiveReason(reasons: set<Reason>, points: real, allVerified: bool)
    requires Reason.VERIFIED !in reasons
    ensures Reason.VERIFIED in WithPositive(reasons, points, allVerified)
            <==> reasons == {} && allVerified && points < 80.0
  {
    if points >= 80.0 && reasons == {} {
      assert NO_MATERIAL_ISSUES in reasons + {NO_MATERIAL_ISSUES};
    }
  }

  lemma NeverAdverse(p: Policy, i: Inputs, d: Document)
    ensures Reason.VERIFIED !in AdverseReasons(p, i, d)
  {
    var t := CanonicalType(p, d.documentType);
    NoneVerified(p, t, EvidenceFor(i.evidence, d.documentId), SortedSet(DocumentFlags(p, i, d)), QualityOf(i, d));
    NoStatusVerified(p, t, i.results, i.verifications);
    hide EvidenceReasons, ComplianceReasons, VerificationReasons, MaterialReasons, QualityReasons;
    hide CanonicalType, EvidenceFor, DocumentFlags, SortedSet, QualityOf;
  }

  lemma NoneVerified(p: Policy, t: string, evidence: seq<Evidence>, flags: seq<string>, q: Option<QualityState>)
    ensures Reason.VERIFIED !in EvidenceReasons(p, t, evidence)
    ensures Reason.VERIFIED !in MaterialReasons(p, flags)
    ensures Reason.VERIFIED !in QualityReasons(q)
  {
    hide LowConfidence, IsMaterial;
  }

  lemma NoStatusVerified(p: Policy, t: string, results: seq<ComplianceResult>, records: seq<Verification>)
    ensures Reason.VERIFIED !in ComplianceReasons(p, t, results)
    ensures Reason.VERIFIED !in VerificationReasons(p, t, records)
  {
    hide AppliesTo;
    assert forall s :: Reason.VERIFIED !in ComplianceReason(s);
    assert forall s :: Reason.VERIFIED !in VerificationReason(s);
  }
}
