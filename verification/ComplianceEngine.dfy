/** Grouping, dispatch and verification tracking (src/compliance_engine/engine.py,
    rules/executor.py). Rules and providers are arbitrary deterministic values; a
    rule's exception is not modelled. */
module ComplianceEngine {
  import opened Ordering
  import opened Vocabulary

  datatype Applicability = APPLICABLE | NOT_APPLICABLE | UNKNOWN

  datatype Requirement = Requirement(requirementId: string, capability: string, ruleId: string,
                                     applicability: Applicability)

  datatype Result = Result(requirementId: string, capability: string, status: ComplianceStatus, ruleId: string,
                           detail: string)

  type Evidence = string
  type Provider = string
  type Verification = string

  /** What a rule does to its provider: verify yields a record, register swaps in an
      enriched copy of the latest one. */
  datatype Call = Verify(record: Verification) | Register(record: Verification)

  datatype Evaluation = Evaluation(result: Result, calls: seq<Call>)

  datatype Rule = Rule(
    requiresProvider: bool,
    evaluate: (seq<Evidence>, Requirement, Option<Provider>) -> Evaluation
  )

  datatype Engine = Engine(rules: map<string, Rule>, providers: map<string, Provider>)

  // ----- the executor -----

  function Fixed(r: Requirement, status: ComplianceStatus): Evaluation {
    Evaluation(Result(r.requirementId, r.capability, status, r.ruleId, ""), [])
  }

  function Evaluate(e: Engine, evidence: seq<Evidence>, provider: Option<Provider>, r: Requirement): Evaluation {
    match r.applicability
    case NOT_APPLICABLE => Fixed(r, ComplianceStatus.NOT_APPLICABLE)
    case UNKNOWN => Fixed(r, UNVERIFIABLE)
    case APPLICABLE =>
      if r.ruleId !in e.rules then Fixed(r, NOT_CHECKED)
      else e.rules[r.ruleId].evaluate(evidence, r, provider)
  }

  // ----- the tracking provider -----

  function Track(records: seq<Verification>, c: Call): seq<Verification> {
    match c
    case Verify(v) => records + [v]
    case Register(v) => if records == [] then records else records[..|records| - 1] + [v]
  }

  function TrackAll(records: seq<Verification>, calls: seq<Call>): seq<Verification> {
    if calls == [] then records else Track(TrackAll(records, calls[..|calls| - 1]), calls[|calls| - 1])
  }

  function VerifyCount(calls: seq<Call>): nat {
    if calls == [] then 0 else VerifyCount(calls[..|calls| - 1]) + if calls[|calls| - 1].Verify? then 1 else 0
  }

  class TrackingProvider {
    var records: seq<Verification>

    constructor ()
      ensures records == []
    {
      records := [];
    }

    method VerifyIdentifier(record: Verification) returns (v: Verification)
      modifies this
      ensures v == record && records == old(records) + [record]
    {
      records := records + [record];
      v := record;
    }

    method RegisterEnriched(record: Verification)
      modifies this
      ensures records == if old(records) == [] then [] else old(records)[..|old(records)| - 1] + [record]
    {
      if records != [] {
        records := records[..|records| - 1] + [record];
      }
    }

    method Replay(calls: seq<Call>)
      modifies this
      ensures records == TrackAll(old(records), calls)
    {
      for i := 0 to |calls|
        invariant records == TrackAll(old(records), calls[..i])
      {
        assert calls[..i + 1][..i] == calls[..i];
        match calls[i]
        case Verify(v) => var _ := VerifyIdentifier(v);
        case Register(v) => RegisterEnriched(v);
      }
      assert calls[..|calls|] == calls;
    }
  }

  /** However often rules register enriched copies, one record stays per verify call. */
  lemma {:induction false} OneRecordPerVerify(records: seq<Verification>, calls: seq<Call>)
    ensures |TrackAll(records, calls)| == |records| + VerifyCount(calls)
  {
    if calls != [] {
      OneRecordPerVerify(records, calls[..|calls| - 1]);
    }
  }

  lemma {:induction false} TrackConcat(records: seq<Verification>, a: seq<Call>, b: seq<Call>)
    ensures TrackAll(records, a + b) == TrackAll(TrackAll(records, a), b)
    ensures VerifyCount(a + b) == VerifyCount(a) + VerifyCount(b)
  {
    if b == [] {
      assert a + b == a;
    } else {
      assert (a + b)[..|a + b| - 1] == a + b[..|b| - 1];
      TrackConcat(records, a, b[..|b| - 1]);
    }
  }

  // ----- grouping -----

  /** Capabilities in the order they are first seen. */
  function Capabilities(requirements: seq<Requirement>): seq<string> {
    if requirements == [] then []
    else
      var before, c := Capabilities(requirements[..|requirements| - 1]), requirements[|requirements| - 1].capability;
      if c in before then before else before + [c]
  }

  function OfCapability(requirements: seq<Requirement>, c: string): seq<Requirement> {
    if requirements == [] then []
    else
      var before, r := OfCapability(requirements[..|requirements| - 1], c), requirements[|requirements| - 1];
      if r.capability == c then before + [r] else before
  }

  method GroupByCapability(requirements: seq<Requirement>)
    returns (order: seq<string>, groups: map<string, seq<Requirement>>)
    ensures order == Capabilities(requirements)
    ensures forall c :: c in order ==> c in groups && groups[c] == OfCapability(requirements, c)
  {
    order, groups := [], map[];
    for i := 0 to |requirements|
      invariant order == Capabilities(requirements[..i])
      invariant forall c :: c in groups <==> c in order
      invariant forall c :: c in groups ==> groups[c] == OfCapability(requirements[..i], c)
      invariant forall c :: c !in groups ==> OfCapability(requirements[..i], c) == []
    {
      var r := requirements[i];
      assert requirements[..i + 1][..i] == requirements[..i];
      forall c ensures OfCapability(requirements[..i + 1], c) ==
                       if r.capability == c then OfCapability(requirements[..i], c) + [r]
                           else OfCapability(requirements[..i], c) {
      }
      if r.capability !in groups {
        order := order + [r.capability];
        groups := groups[r.capability := []];
      }
      groups := groups[r.capability := groups[r.capability] + [r]];
    }
    assert requirements[..|requirements|] == requirements;
  }

  // ----- one capability -----

  datatype Class = NON_APPLICABLE | PROVIDER_FREE | PROVIDER_NEEDED

  function ClassOf(e: Engine, r: Requirement): Class {
    if r.applicability != APPLICABLE then NON_APPLICABLE
    else if r.ruleId in e.rules && !e.rules[r.ruleId].requiresProvider then PROVIDER_FREE
    else PROVIDER_NEEDED
  }

  function OfClass(e: Engine, s: seq<Requirement>, c: Class): seq<Requirement> {
    if s == [] then []
    else
      var before, r := OfClass(e, s[..|s| - 1], c), s[|s| - 1];
      if ClassOf(e, r) == c then before + [r] else before
  }

  /** The order in which a group is answered: as given with a provider, otherwise
      in three parts. */
  function AnswerOrder(e: Engine, c: string, group: seq<Requirement>): seq<Requirement> {
    if c in e.providers then group
    else OfClass(e, group, NON_APPLICABLE) + OfClass(e, group, PROVIDER_FREE) + OfClass(e, group, PROVIDER_NEEDED)
  }

  /** The result a requirement of capability `c` gets. */
  function Answer(e: Engine, evidence: seq<Evidence>, c: string, r: Requirement): Result {
    if c in e.providers then Evaluate(e, evidence, Some(e.providers[c]), r).result
    else match ClassOf(e, r)
      case NON_APPLICABLE => Evaluate(e, [], None, r).result
      case PROVIDER_FREE => Evaluate(e, evidence, None, r).result
      case PROVIDER_NEEDED => Fixed(r, UNVERIFIABLE).result
  }

  function Answers(e: Engine, evidence: seq<Evidence>, c: string, s: seq<Requirement>): (rs: seq<Result>)
    ensures |rs| == |s| && forall i :: 0 <= i < |s| ==> rs[i] == Answer(e, evidence, c, s[i])
  {
    seq(|s|, i requires 0 <= i < |s| => Answer(e, evidence, c, s[i]))
  }

  function CallsOf(e: Engine, evidence: seq<Evidence>, c: string, group: seq<Requirement>): seq<Call> {
    if c !in e.providers || group == [] then []
    else CallsOf(e, evidence, c, group[..|group| - 1])
         + Evaluate(e, evidence, Some(e.providers[c]), group[|group| - 1]).calls
  }

  /** The verification records a group leaves behind. */
  function RecordsOf(e: Engine, evidence: seq<Evidence>, c: string, group: seq<Requirement>): seq<Verification> {
    TrackAll([], CallsOf(e, evidence, c, group))
  }

  method RunGroup(e: Engine, evidence: seq<Evidence>, c: string, group: seq<Requirement>)
    returns (results: seq<Result>, records: seq<Verification>)
    ensures results == Answers(e, evidence, c, AnswerOrder(e, c, group))
    ensures records == RecordsOf(e, evidence, c, group)
  {
    if c in e.providers {
      results, records := RunTracked(e, evidence, c, group);
    } else {
      results := RunWithoutProvider(e, evidence, c, group);
      records := [];
    }
  }

  method RunTracked(e: Engine, evidence: seq<Evidence>, c: string, group: seq<Requirement>)
    returns (results: seq<Result>, records: seq<Verification>)
    requires c in e.providers
    ensures results == Answers(e, evidence, c, group)
    ensures records == RecordsOf(e, evidence, c, group)
  {
    hide Evaluate, TrackAll, CallsOf, Answers, AnswerOrder;
    var tracker := new TrackingProvider();
    NoCalls(e, evidence, c);
    results := [];
    for i := 0 to |group|
      invariant |results| == i && forall j :: 0 <= j < i ==> results[j] == Answer(e, evidence, c, group[j])
      invariant tracker.records == TrackAll([], CallsOf(e, evidence, c, group[..i]))
    {
      var evaluation := Evaluate(e, evidence, Some(e.providers[c]), group[i]);
      CallsStep(e, evidence, c, group, i);
      TrackConcat([], CallsOf(e, evidence, c, group[..i]), evaluation.calls);
      tracker.Replay(evaluation.calls);
      results := results + [evaluation.result];
    }
    assert group[..|group|] == group;
    records := tracker.records;
  }

  lemma NoCalls(e: Engine, evidence: seq<Evidence>, c: string)
    ensures TrackAll([], CallsOf(e, evidence, c, [])) == []
  {
  }

  lemma CallsStep(e: Engine, evidence: seq<Evidence>, c: string, group: seq<Requirement>, i: nat)
    requires c in e.providers && i < |group|
    ensures CallsOf(e, evidence, c, group[..i + 1]) ==
            CallsOf(e, evidence, c, group[..i]) + Evaluate(e, evidence, Some(e.providers[c]), group[i]).calls
  {
    hide Evaluate;
    assert group[..i + 1][..i] == group[..i];
  }

  method RunWithoutProvider(e: Engine, evidence: seq<Evidence>, c: string, group: seq<Requirement>)
    returns (results: seq<Result>)
    requires c !in e.providers
    ensures results == Answers(e, evidence, c, AnswerOrder(e, c, group))
  {
    hide Evaluate;
    var nonApplicable, providerFree, applicable: seq<Requirement> := [], [], [];
    for i := 0 to |group|
      invariant nonApplicable == OfClass(e, group[..i], NON_APPLICABLE)
      invariant providerFree == OfClass(e, group[..i], PROVIDER_FREE)
      invariant applicable == OfClass(e, group[..i], PROVIDER_NEEDED)
    {
      assert group[..i + 1][..i] == group[..i];
      match ClassOf(e, group[i])
      case NON_APPLICABLE => nonApplicable := nonApplicable + [group[i]];
      case PROVIDER_FREE => providerFree := providerFree + [group[i]];
      case PROVIDER_NEEDED => applicable := applicable + [group[i]];
    }
    assert group[..|group|] == group;
    results := Answers(e, evidence, c, nonApplicable + providerFree + applicable);
  }

  // ----- the whole run -----

  function OrderOver(e: Engine, caps: seq<string>, requirements: seq<Requirement>): seq<Requirement> {
    if caps == [] then []
    else OrderOver(e, caps[..|caps| - 1], requirements)
         + AnswerOrder(e, caps[|caps| - 1], OfCapability(requirements, caps[|caps| - 1]))
  }

  function RecordsOver(e: Engine, evidence: seq<Evidence>, caps: seq<string>,
                       requirements: seq<Requirement>): seq<Verification> {
    if caps == [] then []
    else RecordsOver(e, evidence, caps[..|caps| - 1], requirements)
         + RecordsOf(e, evidence, caps[|caps| - 1], OfCapability(requirements, caps[|caps| - 1]))
  }

  /** The requirements in the order their results are listed. */
  function ResultOrder(e: Engine, requirements: seq<Requirement>): seq<Requirement> {
    OrderOver(e, Capabilities(requirements), requirements)
  }

  /** `results` answers `order` position by position. */
  predicate Answered(e: Engine, evidence: seq<Evidence>, order: seq<Requirement>, results: seq<Result>) {
    && |results| == |order|
    && forall i :: 0 <= i < |results| ==> results[i] == Answer(e, evidence, order[i].capability, order[i])
  }

  lemma AnsweredNone(e: Engine, evidence: seq<Evidence>)
    ensures Answered(e, evidence, [], [])
  {
  }

  lemma AnsweredConcat(e: Engine, evidence: seq<Evidence>, a: seq<Requirement>, ra: seq<Result>, b: seq<Requirement>,
                       rb: seq<Result>)
    requires Answered(e, evidence, a, ra) && Answered(e, evidence, b, rb)
    ensures Answered(e, evidence, a + b, ra + rb)
  {
    hide Answer;
  }

  lemma GroupAnswered(e: Engine, evidence: seq<Evidence>, c: string, requirements: seq<Requirement>)
    ensures var order := AnswerOrder(e, c, OfCapability(requirements, c));
            Answered(e, evidence, order, Answers(e, evidence, c, order))
  {
    hide Answer, AnswerOrder;
    var order := AnswerOrder(e, c, OfCapability(requirements, c));
    AnswerOrderIs(e, c, OfCapability(requirements, c));
    CapabilityOfGroup(requirements, c);
    forall i | 0 <= i < |order| ensures order[i].capability == c {
      assert order[i] in order;
    }
  }

  /** Evaluates all requirements: one result each, in ResultOrder, and the records
      of the groups in turn. */
  method EvaluateRequirements(e: Engine, evidence: seq<Evidence>, requirements: seq<Requirement>)
    returns (results: seq<Result>, records: seq<Verification>)
    ensures Answered(e, evidence, ResultOrder(e, requirements), results)
    ensures records == RecordsOver(e, evidence, Capabilities(requirements), requirements)
    ensures multiset(ResultOrder(e, requirements)) == multiset(requirements)
    ensures |results| == |requirements| == |ResultOrder(e, requirements)|
    ensures forall i :: 0 <= i < |results| ==> Settles(e, evidence, ResultOrder(e, requirements)[i], results[i])
    ensures records == Captured(e, evidence, Capabilities(requirements), requirements)
    ensures |records| == VerifyTotal(e, evidence, requirements)
  {
    ResultsPermuteRequirements(e, requirements);
    AnsweredSettle(e, evidence, ResultOrder(e, requirements));
    RecordsAreCaptured(e, evidence, Capabilities(requirements), requirements);
    EveryVerifyRecorded(e, evidence, requirements);
    hide Settles, Captured, VerifyTotal;
    hide Answered, AnswerOrder, RecordsOf, Capabilities, OfCapability, Answers;
    AnsweredNone(e, evidence);
    var order, groups := GroupByCapability(requirements);
    results, records := [], [];
    for k := 0 to |order|
      invariant Answered(e, evidence, OrderOver(e, order[..k], requirements), results)
      invariant records == RecordsOver(e, evidence, order[..k], requirements)
    {
      var c := order[k];
      assert order[..k + 1][..k] == order[..k];
      var groupResults, groupRecords := RunGroup(e, evidence, c, groups[c]);
      GroupAnswered(e, evidence, c, requirements);
      AnsweredConcat(e, evidence, OrderOver(e, order[..k], requirements), results,
                     AnswerOrder(e, c, OfCapability(requirements, c)), groupResults);
      results := results + groupResults;
      records := records + groupRecords;
    }
    assert order[..|order|] == order;
  }

  lemma {:induction false} CapabilityOfGroup(requirements: seq<Requirement>, c: string)
    ensures forall r :: r in OfCapability(requirements, c) ==> r.capability == c
  {
    if requirements != [] {
      CapabilityOfGroup(requirements[..|requirements| - 1], c);
    }
  }

  lemma {:induction false} ClassCount(e: Engine, s: seq<Requirement>, k: Class, r: Requirement)
    ensures multiset(OfClass(e, s, k))[r] == if ClassOf(e, r) == k then multiset(s)[r] else 0
  {
    hide ClassOf;
    if s != [] {
      var init, last := s[..|s| - 1], s[|s| - 1];
      ClassCount(e, init, k, r);
      assert s == init + [last];
    }
  }

  lemma ClassesPartition(e: Engine, s: seq<Requirement>)
    ensures multiset(OfClass(e, s, NON_APPLICABLE) + OfClass(e, s, PROVIDER_FREE) + OfClass(e, s, PROVIDER_NEEDED)) ==
            multiset(s)
  {
    hide ClassOf, OfClass;
    var a, b, c := OfClass(e, s, NON_APPLICABLE), OfClass(e, s, PROVIDER_FREE), OfClass(e, s, PROVIDER_NEEDED);
    forall r ensures multiset(a + b + c)[r] == multiset(s)[r] {
      ClassCount(e, s, NON_APPLICABLE, r);
      ClassCount(e, s, PROVIDER_FREE, r);
      ClassCount(e, s, PROVIDER_NEEDED, r);
      assert multiset(a + b + c) == multiset(a) + multiset(b) + multiset(c);
    }
  }

  /** Splitting a group reorders it, nothing more. */
  lemma AnswerOrderIs(e: Engine, c: string, group: seq<Requirement>)
    ensures multiset(AnswerOrder(e, c, group)) == multiset(group)
    ensures |AnswerOrder(e, c, group)| == |group|
    ensures forall r :: r in AnswerOrder(e, c, group) <==> r in group
  {
    ClassesPartition(e, group);
    InMultiset(AnswerOrder(e, c, group), group);
  }

  lemma {:induction false} GroupCount(requirements: seq<Requirement>, c: string, r: Requirement)
    ensures multiset(OfCapability(requirements, c))[r] == if r.capability == c then multiset(requirements)[r] else 0
  {
    if requirements != [] {
      var init, last := requirements[..|requirements| - 1], requirements[|requirements| - 1];
      assert requirements == init + [last];
      GroupCount(init, c, r);
    }
  }

  lemma {:induction false} CapabilitiesAre(requirements: seq<Requirement>)
    ensures forall r :: r in requirements ==> r.capability in Capabilities(requirements)
    ensures forall i, j :: 0 <= i < j < |Capabilities(requirements)| ==>
            Capabilities(requirements)[i] != Capabilities(requirements)[j]
    ensures forall c :: c in Capabilities(requirements) ==>
            exists r: Requirement :: r in requirements && r.capability == c
  {
    if requirements != [] {
      var init, last := requirements[..|requirements| - 1], requirements[|requirements| - 1];
      assert requirements == init + [last];
      CapabilitiesAre(init);
    }
  }

  /** Capabilities are listed as they are first seen. */
  lemma {:induction false} FirstSeenFirst(a: seq<Requirement>, b: seq<Requirement>)
    ensures Capabilities(a) <= Capabilities(a + b)
  {
    if b == [] {
      assert a + b == a;
    } else {
      assert (a + b)[..|a + b| - 1] == a + b[..|b| - 1];
      FirstSeenFirst(a, b[..|b| - 1]);
    }
  }

  lemma {:induction false} OrderOverCounts(e: Engine, caps: seq<string>, requirements: seq<Requirement>, r: Requirement)
    requires forall i, j :: 0 <= i < j < |caps| ==> caps[i] != caps[j]
    ensures multiset(OrderOver(e, caps, requirements))[r] == if r.capability in caps then multiset(requirements)[r]
            else 0
  {
    hide AnswerOrder, Capabilities, OfCapability;
    if caps != [] {
      var init, c := caps[..|caps| - 1], caps[|caps| - 1];
      assert caps == init + [c];
      OrderOverCounts(e, init, requirements, r);
      AnswerOrderIs(e, c, OfCapability(requirements, c));
      GroupCount(requirements, c, r);
    }
  }

  /** The results answer each requirement exactly once. */
  lemma ResultsPermuteRequirements(e: Engine, requirements: seq<Requirement>)
    ensures multiset(ResultOrder(e, requirements)) == multiset(requirements)
    ensures |ResultOrder(e, requirements)| == |requirements|
  {
    CapabilitiesAre(requirements);
    forall r ensures multiset(ResultOrder(e, requirements))[r] == multiset(requirements)[r] {
      OrderOverCounts(e, Capabilities(requirements), requirements, r);
      hide Capabilities, OrderOver;
      if r in multiset(requirements) {
        assert r in requirements;
      }
    }
    InMultiset(ResultOrder(e, requirements), requirements);
  }

  function VerifiesOver(e: Engine, evidence: seq<Evidence>, caps: seq<string>, requirements: seq<Requirement>): nat {
    if caps == [] then 0
    else VerifiesOver(e, evidence, caps[..|caps| - 1], requirements)
         + VerifyCount(CallsOf(e, evidence, caps[|caps| - 1], OfCapability(requirements, caps[|caps| - 1])))
  }

  /** The recorded verifications number exactly the verify calls of the run. */
  lemma {:induction false} RecordsCountVerifies(e: Engine, evidence: seq<Evidence>, caps: seq<string>,
                                                requirements: seq<Requirement>)
    ensures |RecordsOver(e, evidence, caps, requirements)| == VerifiesOver(e, evidence, caps, requirements)
  {
    if caps != [] {
      var c := caps[|caps| - 1];
      RecordsCountVerifies(e, evidence, caps[..|caps| - 1], requirements);
      OneRecordPerVerify([], CallsOf(e, evidence, c, OfCapability(requirements, c)));
    }
  }

  // ----- what the run gives, rule by rule -----

  /** `x` is the answer to `r`: its rule's result where the rule may run, otherwise a
      fixed status under the requirement's own ids. */
  ghost predicate Settles(e: Engine, evidence: seq<Evidence>, r: Requirement, x: Result) {
    match r.applicability
    case NOT_APPLICABLE => HasStatus(r, ComplianceStatus.NOT_APPLICABLE, x)
    case UNKNOWN => HasStatus(r, UNVERIFIABLE, x)
    case APPLICABLE =>
      if r.capability in e.providers then
        if r.ruleId in e.rules then
          x == e.rules[r.ruleId].evaluate(evidence, r, Some(e.providers[r.capability])).result
        else HasStatus(r, NOT_CHECKED, x)
      else if r.ruleId in e.rules && !e.rules[r.ruleId].requiresProvider then
        x == e.rules[r.ruleId].evaluate(evidence, r, None).result
      else HasStatus(r, UNVERIFIABLE, x)
  }

  ghost predicate HasStatus(r: Requirement, status: ComplianceStatus, x: Result) {
    x.requirementId == r.requirementId && x.capability == r.capability && x.ruleId == r.ruleId && x.status == status
  }

  lemma AnsweredSettle(e: Engine, evidence: seq<Evidence>, order: seq<Requirement>)
    ensures forall results :: Answered(e, evidence, order, results) ==>
              |results| == |order| && forall i :: 0 <= i < |order| ==> Settles(e, evidence, order[i], results[i])
  {
    forall r: Requirement ensures Settles(e, evidence, r, Answer(e, evidence, r.capability, r)) {
      AnswerSettles(e, evidence, r);
    }
    hide Settles, Answer;
  }

  lemma AnswerSettles(e: Engine, evidence: seq<Evidence>, r: Requirement)
    ensures Settles(e, evidence, r, Answer(e, evidence, r.capability, r))
  {
  }

  /** The provider calls `r` causes: those of its rule, if that runs with a provider. */
  ghost function RuleCalls(e: Engine, evidence: seq<Evidence>, r: Requirement): seq<Call> {
    if r.applicability == APPLICABLE && r.ruleId in e.rules && r.capability in e.providers then
      e.rules[r.ruleId].evaluate(evidence, r, Some(e.providers[r.capability])).calls
    else []
  }

  /** The calls caused by the requirements of capability `c`, in order. */
  ghost function CallsFor(e: Engine, evidence: seq<Evidence>, c: string, requirements: seq<Requirement>): seq<Call> {
    if requirements == [] then []
    else
      (if requirements[0].capability == c then RuleCalls(e, evidence, requirements[0]) else [])
      + CallsFor(e, evidence, c, requirements[1..])
  }

  /** The records captured capability by capability, each with a list of its own. */
  ghost function Captured(e: Engine, evidence: seq<Evidence>, caps: seq<string>, requirements: seq<Requirement>)
    : seq<Verification>
  {
    if caps == [] then []
    else TrackAll([], CallsFor(e, evidence, caps[0], requirements)) + Captured(e, evidence, caps[1..], requirements)
  }

  /** How often the rules of all requirements verify. */
  ghost function VerifyTotal(e: Engine, evidence: seq<Evidence>, requirements: seq<Requirement>): nat {
    if requirements == [] then 0
    else VerifyCount(RuleCalls(e, evidence, requirements[0])) + VerifyTotal(e, evidence, requirements[1..])
  }

  /** Selecting by capability keeps order and occurrences. */
  lemma {:induction false} OfCapabilityConcat(a: seq<Requirement>, b: seq<Requirement>, c: string)
    ensures OfCapability(a + b, c) == OfCapability(a, c) + OfCapability(b, c)
  {
    if b == [] {
      assert a + b == a;
    } else {
      assert (a + b)[..|a + b| - 1] == a + b[..|b| - 1];
      OfCapabilityConcat(a, b[..|b| - 1], c);
    }
  }

  lemma OfCapabilityOne(r: Requirement, c: string)
    ensures OfCapability([r], c) == if r.capability == c then [r] else []
  {
    assert [r][..0] == [];
  }

  /** So does selecting by class. */
  lemma {:induction false} OfClassConcat(e: Engine, a: seq<Requirement>, b: seq<Requirement>, k: Class)
    ensures OfClass(e, a + b, k) == OfClass(e, a, k) + OfClass(e, b, k)
  {
    hide ClassOf;
    if b == [] {
      assert a + b == a;
    } else {
      assert (a + b)[..|a + b| - 1] == a + b[..|b| - 1];
      OfClassConcat(e, a, b[..|b| - 1], k);
    }
  }

  lemma ClassIs(e: Engine, r: Requirement)
    ensures OfClass(e, [r], NON_APPLICABLE) == if r.applicability != APPLICABLE then [r] else []
    ensures OfClass(e, [r], PROVIDER_FREE) ==
            if r.applicability == APPLICABLE && r.ruleId in e.rules && !e.rules[r.ruleId].requiresProvider
            then [r] else []
  {
    assert [r][..0] == [];
  }

  /** Results are listed capability by capability. */
  lemma {:induction false} OrderOverConcat(e: Engine, a: seq<string>, b: seq<string>, requirements: seq<Requirement>)
    ensures OrderOver(e, a + b, requirements) == OrderOver(e, a, requirements) + OrderOver(e, b, requirements)
  {
    hide OfCapability, AnswerOrder;
    if b == [] {
      assert a + b == a;
    } else {
      var init, c := b[..|b| - 1], b[|b| - 1];
      assert (a + b)[..|a + b| - 1] == a + init;
      OrderOverConcat(e, a, init, requirements);
      Reassociate(OrderOver(e, a, requirements), OrderOver(e, init, requirements),
                  AnswerOrder(e, c, OfCapability(requirements, c)));
    }
  }

  lemma Reassociate<T>(a: seq<T>, b: seq<T>, c: seq<T>)
    ensures (a + b) + c == a + (b + c)
  {
  }

  /** With a provider the results of a capability keep the order given; without one they
      come in three parts. */
  lemma GroupOrder(e: Engine, c: string, requirements: seq<Requirement>)
    ensures OrderOver(e, [c], requirements) ==
            var group := OfCapability(requirements, c);
            if c in e.providers then group
            else
              OfClass(e, group, NON_APPLICABLE) + OfClass(e, group, PROVIDER_FREE)
              + OfClass(e, group, PROVIDER_NEEDED)
  {
    hide OfCapability, OfClass;
    assert [c][..0] == [];
  }

  lemma {:induction false} CallsForIs(e: Engine, evidence: seq<Evidence>, c: string, requirements: seq<Requirement>)
    ensures CallsOf(e, evidence, c, OfCapability(requirements, c)) == CallsFor(e, evidence, c, requirements)
  {
    if requirements != [] {
      var r, rest := requirements[0], requirements[1..];
      CallsForIs(e, evidence, c, rest);
      assert requirements == [r] + rest;
      OfCapabilityConcat([r], rest, c);
      OfCapabilityOne(r, c);
      CallsOfConcat(e, evidence, c, OfCapability([r], c), OfCapability(rest, c));
      if r.capability == c {
        CallsOfOne(e, evidence, r);
      }
      hide CallsOf, RuleCalls;
    }
  }

  lemma CallsOfOne(e: Engine, evidence: seq<Evidence>, r: Requirement)
    ensures CallsOf(e, evidence, r.capability, [r]) == RuleCalls(e, evidence, r)
  {
    assert [r][..0] == [];
  }

  lemma {:induction false} CallsOfConcat(e: Engine, evidence: seq<Evidence>, c: string, a: seq<Requirement>,
                                         b: seq<Requirement>)
    ensures CallsOf(e, evidence, c, a + b) == CallsOf(e, evidence, c, a) + CallsOf(e, evidence, c, b)
  {
    hide Evaluate;
    if b == [] {
      assert a + b == a;
    } else {
      assert (a + b)[..|a + b| - 1] == a + b[..|b| - 1];
      CallsOfConcat(e, evidence, c, a, b[..|b| - 1]);
    }
  }

  lemma {:induction false} CapturedSnoc(e: Engine, evidence: seq<Evidence>, caps: seq<string>, c: string,
                                        requirements: seq<Requirement>)
    ensures Captured(e, evidence, caps + [c], requirements) ==
            Captured(e, evidence, caps, requirements) + TrackAll([], CallsFor(e, evidence, c, requirements))
  {
    hide TrackAll, CallsFor;
    if caps == [] {
      assert caps + [c] == [c];
    } else {
      assert (caps + [c])[1..] == caps[1..] + [c];
      CapturedSnoc(e, evidence, caps[1..], c, requirements);
    }
  }

  lemma {:induction false} RecordsAreCaptured(e: Engine, evidence: seq<Evidence>, caps: seq<string>,
                                              requirements: seq<Requirement>)
    ensures RecordsOver(e, evidence, caps, requirements) == Captured(e, evidence, caps, requirements)
  {
    if caps != [] {
      var init, c := caps[..|caps| - 1], caps[|caps| - 1];
      assert caps == init + [c];
      RecordsAreCaptured(e, evidence, init, requirements);
      CapturedSnoc(e, evidence, init, c, requirements);
      CallsForIs(e, evidence, c, requirements);
      hide Captured, CallsFor, TrackAll;
    }
  }

  ghost function VerifiesFor(e: Engine, evidence: seq<Evidence>, caps: seq<string>,
                             requirements: seq<Requirement>): nat {
    if caps == [] then 0
    else VerifyCount(CallsFor(e, evidence, caps[0], requirements)) + VerifiesFor(e, evidence, caps[1..], requirements)
  }

  lemma {:induction false} CapturedCount(e: Engine, evidence: seq<Evidence>, caps: seq<string>,
                                         requirements: seq<Requirement>)
    ensures |Captured(e, evidence, caps, requirements)| == VerifiesFor(e, evidence, caps, requirements)
  {
    if caps != [] {
      CapturedCount(e, evidence, caps[1..], requirements);
      OneRecordPerVerify([], CallsFor(e, evidence, caps[0], requirements));
    }
  }

  /** One more requirement adds its own verifications under its capability. */
  lemma {:induction false} VerifiesForCons(e: Engine, evidence: seq<Evidence>, caps: seq<string>,
                                           requirements: seq<Requirement>)
    requires requirements != [] && forall i, j :: 0 <= i < j < |caps| ==> caps[i] != caps[j]
    ensures VerifiesFor(e, evidence, caps, requirements) ==
            VerifiesFor(e, evidence, caps, requirements[1..])
            + if requirements[0].capability in caps then VerifyCount(RuleCalls(e, evidence, requirements[0])) else 0
  {
    hide RuleCalls;
    if caps != [] {
      VerifiesForCons(e, evidence, caps[1..], requirements);
      var r, c := requirements[0], caps[0];
      var own := if r.capability == c then RuleCalls(e, evidence, r) else [];
      var others := CallsFor(e, evidence, c, requirements[1..]);
      TrackConcat([], own, others);
      assert r.capability in caps <==> r.capability == c || r.capability in caps[1..];
    }
  }

  lemma {:induction false} VerifiesForAll(e: Engine, evidence: seq<Evidence>, caps: seq<string>,
                                          requirements: seq<Requirement>)
    requires forall i, j :: 0 <= i < j < |caps| ==> caps[i] != caps[j]
    requires forall r :: r in requirements ==> r.capability in caps
    ensures VerifiesFor(e, evidence, caps, requirements) == VerifyTotal(e, evidence, requirements)
  {
    hide RuleCalls;
    if requirements == [] {
      NothingToVerify(e, evidence, caps);
    } else {
      VerifiesForCons(e, evidence, caps, requirements);
      VerifiesForAll(e, evidence, caps, requirements[1..]);
    }
  }

  lemma {:induction false} NothingToVerify(e: Engine, evidence: seq<Evidence>, caps: seq<string>)
    ensures VerifiesFor(e, evidence, caps, []) == 0
  {
    if caps != [] {
      NothingToVerify(e, evidence, caps[1..]);
    }
  }

  lemma EveryVerifyRecorded(e: Engine, evidence: seq<Evidence>, requirements: seq<Requirement>)
    ensures |Captured(e, evidence, Capabilities(requirements), requirements)| == VerifyTotal(e, evidence, requirements)
  {
    hide Capabilities, Captured, VerifyTotal;
    CapabilitiesAre(requirements);
    CapturedCount(e, evidence, Capabilities(requirements), requirements);
    VerifiesForAll(e, evidence, Capabilities(requirements), requirements);
  }

  // ----- non-interference -----

  /** The engines differ at most in the provider registered for `c`. */
  ghost predicate SameBut(e: Engine, f: Engine, c: string) {
    && e.rules == f.rules
    && forall d :: d != c ==>
                     && (d in e.providers <==> d in f.providers)
                     && (d in e.providers ==> e.providers[d] == f.providers[d])
  }

  lemma {:induction false} SameOfClass(e: Engine, f: Engine, s: seq<Requirement>, k: Class)
    requires e.rules == f.rules
    ensures OfClass(e, s, k) == OfClass(f, s, k)
  {
    if s != [] {
      SameOfClass(e, f, s[..|s| - 1], k);
    }
  }

  lemma {:induction false} SameCalls(e: Engine, f: Engine, evidence: seq<Evidence>, d: string, group: seq<Requirement>)
    requires e.rules == f.rules && (d in e.providers <==> d in f.providers)
    requires d in e.providers ==> e.providers[d] == f.providers[d]
    ensures CallsOf(e, evidence, d, group) == CallsOf(f, evidence, d, group)
  {
    if group != [] {
      SameCalls(e, f, evidence, d, group[..|group| - 1]);
    }
  }

  lemma SameGroup(e: Engine, f: Engine, c: string, d: string, evidence: seq<Evidence>, group: seq<Requirement>)
    requires SameBut(e, f, c) && d != c
    ensures AnswerOrder(e, d, group) == AnswerOrder(f, d, group)
    ensures RecordsOf(e, evidence, d, group) == RecordsOf(f, evidence, d, group)
    ensures forall r :: Answer(e, evidence, d, r) == Answer(f, evidence, d, r)
  {
    SameOfClass(e, f, group, NON_APPLICABLE);
    SameOfClass(e, f, group, PROVIDER_FREE);
    SameOfClass(e, f, group, PROVIDER_NEEDED);
    SameCalls(e, f, evidence, d, group);
  }

  lemma {:induction false} SamePositions(e: Engine, f: Engine, c: string, evidence: seq<Evidence>, caps: seq<string>,
                                         requirements: seq<Requirement>)
    requires SameBut(e, f, c)
    ensures AgreeOff(OrderOver(e, caps, requirements), OrderOver(f, caps, requirements), c)
    ensures c !in caps ==> RecordsOver(e, evidence, caps, requirements) == RecordsOver(f, evidence, caps, requirements)
  {
    if caps != [] {
      hide AnswerOrder, RecordsOf, OfCapability;
      var init, d := caps[..|caps| - 1], caps[|caps| - 1];
      var group := OfCapability(requirements, d);
      assert caps == init + [d];
      SamePositions(e, f, c, evidence, init, requirements);
      AnswerOrderIs(e, d, group);
      AnswerOrderIs(f, d, group);
      CapabilityOfGroup(requirements, d);
      if d != c {
        SameGroup(e, f, c, d, evidence, group);
      }
      AgreeConcat(OrderOver(e, init, requirements), OrderOver(f, init, requirements),
                  AnswerOrder(e, d, group), AnswerOrder(f, d, group), c);
    }
  }

  /** Of equal length, and equal wherever the capability is not `c`. */
  ghost predicate AgreeOff(a: seq<Requirement>, b: seq<Requirement>, c: string) {
    |a| == |b| && forall i :: 0 <= i < |a| && a[i].capability != c ==> b[i] == a[i]
  }

  lemma AgreeConcat(a: seq<Requirement>, a': seq<Requirement>, b: seq<Requirement>, b': seq<Requirement>, c: string)
    requires AgreeOff(a, a', c) && |b| == |b'|
    requires b == b' || forall r :: r in b ==> r.capability == c
    ensures AgreeOff(a + b, a' + b', c)
  {
    if b != b' {
      forall i | 0 <= i < |b| ensures b[i].capability == c { assert b[i] in b; }
    }
  }

  /** Adding, removing or replacing the provider of one capability changes neither
      the position nor the result nor the records of any other capability. */
  lemma ProvidersDoNotInterfere(e: Engine, f: Engine, c: string, evidence: seq<Evidence>,
                                requirements: seq<Requirement>, i: nat, d: string)
    requires SameBut(e, f, c) && d != c
    requires i < |ResultOrder(e, requirements)| && ResultOrder(e, requirements)[i].capability != c
    ensures i < |ResultOrder(f, requirements)|
    ensures var r := ResultOrder(e, requirements)[i];
            ResultOrder(f, requirements)[i] == r
                && Answer(e, evidence, r.capability, r) == Answer(f, evidence, r.capability, r)
    ensures RecordsOf(e, evidence, d, OfCapability(requirements, d)) ==
            RecordsOf(f, evidence, d, OfCapability(requirements, d))
  {
    SamePositions(e, f, c, evidence, Capabilities(requirements), requirements);
    SameGroup(e, f, c, ResultOrder(e, requirements)[i].capability, evidence, []);
    SameGroup(e, f, c, d, evidence, OfCapability(requirements, d));
  }
}
