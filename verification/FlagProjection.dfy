/** Projection of engine outputs into flag states (src/application/flag_projection.py). */
module FlagProjection {
  import opened Ordering

  datatype ComplianceResult = ComplianceResult(
    requirementId: string,
    flags: seq<string>,
    evidenceRefs: seq<string>,
    verificationRefs: seq<string>
  )

  datatype VerificationFinding = VerificationFinding(
    findingId: string,
    flagId: string,
    evidenceRefs: seq<string>,
    verificationRefs: seq<string>
  )

  datatype IdentityFinding = IdentityFinding(flagId: string, left: string, right: string, evidenceRefs: seq<string>)

  datatype Outputs = Outputs(
    results: seq<ComplianceResult>,
    findings: seq<VerificationFinding>,
    identities: seq<IdentityFinding>
  )

  /** The references a flag has gathered. */
  datatype Refs = Refs(findings: set<string>, evidence: set<string>, verifications: set<string>)

  datatype FlagState = FlagState(
    bidderId: string,
    flagId: string,
    findingRefs: seq<string>,
    evidenceRefs: seq<string>,
    verificationRefs: seq<string>
  )

  /** One mention of a flag by one engine output. */
  datatype Mention = Mention(flagId: string, finding: string, evidence: set<string>, verifications: set<string>)

  function Elements(s: seq<string>): set<string> { set x | x in s }

  function ComplianceFindingId(bidder: string, requirement: string, flag: string): string {
    "fnd:compliance:" + bidder + ":" + requirement + ":" + flag
  }

  function IdentityFindingId(bidder: string, f: IdentityFinding): string {
    "fnd:identity:" + bidder + ":" + f.flagId + ":" + f.left + ":" + f.right
  }

  function ResultMention(bidder: string, r: ComplianceResult, flag: string): Mention {
    Mention(flag, ComplianceFindingId(bidder, r.requirementId, flag), Elements(r.evidenceRefs),
            Elements(r.verificationRefs))
  }

  function FindingMention(f: VerificationFinding): Mention {
    Mention(f.flagId, f.findingId, Elements(f.evidenceRefs), Elements(f.verificationRefs))
  }

  function IdentityMention(bidder: string, f: IdentityFinding): Mention {
    Mention(f.flagId, IdentityFindingId(bidder, f), Elements(f.evidenceRefs), {})
  }

  function ResultMentions(bidder: string, r: ComplianceResult): set<Mention> {
    set g | g in r.flags :: ResultMention(bidder, r, g)
  }

  function OfResults(bidder: string, results: seq<ComplianceResult>): set<Mention> {
    set r, m | r in results && m in ResultMentions(bidder, r) :: m
  }

  function OfFindings(findings: seq<VerificationFinding>): set<Mention> {
    set f | f in findings :: FindingMention(f)
  }

  function OfIdentities(bidder: string, identities: seq<IdentityFinding>): set<Mention> {
    set f | f in identities :: IdentityMention(bidder, f)
  }

  /** Every mention of a flag in the outputs. */
  function Mentions(bidder: string, o: Outputs): set<Mention> {
    OfResults(bidder, o.results) + OfFindings(o.findings) + OfIdentities(bidder, o.identities)
  }

  function MentionedFlags(ms: set<Mention>): set<string> { set m | m in ms :: m.flagId }

  /** A flag's references: the union over the outputs that mention it. */
  function RefsOf(ms: set<Mention>, flag: string): Refs {
    Refs(set m | m in ms && m.flagId == flag :: m.finding,
         set m, x | m in ms && m.flagId == flag && x in m.evidence :: x,
         set m, x | m in ms && m.flagId == flag && x in m.verifications :: x)
  }

  function Aggregated(ms: set<Mention>): map<string, Refs> {
    map f | f in MentionedFlags(ms) :: RefsOf(ms, f)
  }

  function StateOf(bidder: string, flag: string, r: Refs): FlagState {
    FlagState(bidder, flag, SortedSet(r.findings), SortedSet(r.evidence), SortedSet(r.verifications))
  }

  /** The flag states of an aggregation, by increasing flag id. */
  function States(bidder: string, a: map<string, Refs>): seq<FlagState> {
    var keys := SortedSet(a.Keys);
    seq(|keys|, i requires 0 <= i < |keys| => assert keys[i] in keys; StateOf(bidder, keys[i], a[keys[i]]))
  }

  lemma StateAt(bidder: string, a: map<string, Refs>)
    ensures |States(bidder, a)| == |SortedSet(a.Keys)|
    ensures forall i :: 0 <= i < |States(bidder, a)| ==>
              && States(bidder, a)[i].flagId == SortedSet(a.Keys)[i] && SortedSet(a.Keys)[i] in a
              && States(bidder, a)[i] == StateOf(bidder, SortedSet(a.Keys)[i], a[SortedSet(a.Keys)[i]])
  {
    var keys := SortedSet(a.Keys);
    hide SortedSet, StrLe;
    assert forall i :: 0 <= i < |keys| ==> keys[i] in keys;
  }

  /** None when some mentioned flag is not registered. */
  function ProjectMentions(bidder: string, ms: set<Mention>, registry: set<string>): Option<seq<FlagState>> {
    if MentionedFlags(ms) <= registry then Some(States(bidder, Aggregated(ms))) else None
  }

  function Project(bidder: string, o: Outputs, registry: set<string>): Option<seq<FlagState>> {
    ProjectMentions(bidder, Mentions(bidder, o), registry)
  }

  // ----- the accumulation -----

  function Accumulate(a: map<string, Refs>, m: Mention): map<string, Refs> {
    var entry := if m.flagId in a then a[m.flagId] else Refs({}, {}, {});
    a[m.flagId := Refs(entry.findings + {m.finding}, entry.evidence + m.evidence,
                       entry.verifications + m.verifications)]
  }

  lemma AccumulateAdds(ms: set<Mention>, m: Mention)
    ensures Accumulate(Aggregated(ms), m) == Aggregated(ms + {m})
  {
    var a, b := Accumulate(Aggregated(ms), m), Aggregated(ms + {m});
    FlagsAdd(ms, {m});
    assert MentionedFlags({m}) == {m.flagId};
    forall f | f in b.Keys ensures f in a && a[f] == b[f] {
      RefsAdd(ms, {m}, f);
      SingleRefs(m, f);
      NoRefs(ms, f);
    }
    assert a.Keys == b.Keys;
  }

  lemma FlagsAdd(a: set<Mention>, b: set<Mention>)
    ensures MentionedFlags(a + b) == MentionedFlags(a) + MentionedFlags(b)
  {
  }

  lemma RefsAdd(a: set<Mention>, b: set<Mention>, f: string)
    ensures RefsOf(a + b, f) == JoinRefs(RefsOf(a, f), RefsOf(b, f))
  {
  }

  lemma SingleRefs(m: Mention, f: string)
    ensures RefsOf({m}, f) == if m.flagId == f then Refs({m.finding}, m.evidence, m.verifications) else Refs({}, {}, {})
  {
  }

  lemma NoRefs(ms: set<Mention>, f: string)
    ensures f !in MentionedFlags(ms) ==> RefsOf(ms, f) == Refs({}, {}, {})
  {
  }

  function JoinRefs(a: Refs, b: Refs): Refs {
    Refs(a.findings + b.findings, a.evidence + b.evidence, a.verifications + b.verifications)
  }

  lemma NothingAggregated()
    ensures Aggregated({}) == map[] && MentionedFlags({}) == {}
  {
  }

  /** Adds one mention unless its flag is unknown. */
  method AccumulateMention(aggregation: map<string, Refs>, m: Mention, registry: set<string>, ghost ms: set<Mention>)
    returns (ok: bool, aggregation': map<string, Refs>)
    requires aggregation == Aggregated(ms) && MentionedFlags(ms) <= registry
    ensures ok <==> MentionedFlags(ms + {m}) <= registry
    ensures ok ==> aggregation' == Aggregated(ms + {m})
  {
    hide Aggregated;
    FlagsAdd(ms, {m});
    assert MentionedFlags({m}) == {m.flagId};
    hide MentionedFlags;
    if m.flagId !in registry {
      return false, aggregation;
    }
    AccumulateAdds(ms, m);
    var entry := if m.flagId in aggregation then aggregation[m.flagId] else Refs({}, {}, {});
    aggregation' := aggregation[m.flagId :=
      Refs(entry.findings + {m.finding}, entry.evidence + m.evidence, entry.verifications + m.verifications)];
    ok := true;
  }

  lemma StepMentions(bidder: string, results: seq<ComplianceResult>, i: nat, j: nat)
    requires i < |results| && j < |results[i].flags|
    ensures var r := results[i];
            && ResultMentions(bidder, r.(flags := r.flags[..j + 1])) ==
               ResultMentions(bidder, r.(flags := r.flags[..j])) + {ResultMention(bidder, r, r.flags[j])}
  {
    var r := results[i];
    assert r.flags[..j + 1] == r.flags[..j] + [r.flags[j]];
    assert forall g :: ResultMention(bidder, r.(flags := r.flags[..j]), g) == ResultMention(bidder, r, g);
    assert forall g :: ResultMention(bidder, r.(flags := r.flags[..j + 1]), g) == ResultMention(bidder, r, g);
  }

  lemma StepResults(bidder: string, results: seq<ComplianceResult>, i: nat)
    requires i < |results|
    ensures OfResults(bidder, results[..i + 1]) == OfResults(bidder, results[..i]) + ResultMentions(bidder, results[i])
  {
    hide ResultMentions;
    assert results[..i + 1] == results[..i] + [results[i]];
  }

  lemma StepFindings(findings: seq<VerificationFinding>, i: nat)
    requires i < |findings|
    ensures OfFindings(findings[..i + 1]) == OfFindings(findings[..i]) + {FindingMention(findings[i])}
  {
    assert findings[..i + 1] == findings[..i] + [findings[i]];
  }

  lemma StepIdentities(bidder: string, identities: seq<IdentityFinding>, i: nat)
    requires i < |identities|
    ensures OfIdentities(bidder, identities[..i + 1]) ==
            OfIdentities(bidder, identities[..i]) + {IdentityMention(bidder, identities[i])}
  {
    assert identities[..i + 1] == identities[..i] + [identities[i]];
  }

  lemma FewerFlags(a: set<Mention>, b: set<Mention>)
    requires a <= b
    ensures MentionedFlags(a) <= MentionedFlags(b)
  {
  }

  method AccumulateResult(aggregation: map<string, Refs>, bidder: string, r: ComplianceResult, registry: set<string>,
                          ghost ms: set<Mention>)
    returns (ok: bool, aggregation': map<string, Refs>)
    requires aggregation == Aggregated(ms) && MentionedFlags(ms) <= registry
    ensures ok <==> MentionedFlags(ms + ResultMentions(bidder, r)) <= registry
    ensures ok ==> aggregation' == Aggregated(ms + ResultMentions(bidder, r))
  {
    hide Aggregated, MentionedFlags, ResultMention;
    aggregation' := aggregation;
    ghost var done := {};
    assert ms + done == ms;
    for j := 0 to |r.flags|
      invariant done == ResultMentions(bidder, r.(flags := r.flags[..j]))
      invariant MentionedFlags(ms + done) <= registry
      invariant aggregation' == Aggregated(ms + done)
    {
      var m := ResultMention(bidder, r, r.flags[j]);
      StepMentions(bidder, [r], 0, j);
      ok, aggregation' := AccumulateMention(aggregation', m, registry, ms + done);
      assert (ms + done) + {m} == ms + (done + {m});
      done := done + {m};
      if !ok {
        PartialResult(bidder, r, j + 1);
        FewerFlags(ms + done, ms + ResultMentions(bidder, r));
        return;
      }
    }
    assert r.(flags := r.flags[..|r.flags|]) == r;
    ok := true;
  }

  lemma PartialResult(bidder: string, r: ComplianceResult, j: nat)
    requires j <= |r.flags|
    ensures ResultMentions(bidder, r.(flags := r.flags[..j])) <= ResultMentions(bidder, r)
  {
    assert forall g :: ResultMention(bidder, r.(flags := r.flags[..j]), g) == ResultMention(bidder, r, g);
  }

  method AccumulateResults(bidder: string, results: seq<ComplianceResult>, registry: set<string>)
    returns (ok: bool, aggregation: map<string, Refs>)
    ensures ok <==> MentionedFlags(OfResults(bidder, results)) <= registry
    ensures ok ==> aggregation == Aggregated(OfResults(bidder, results))
  {
    NothingAggregated();
    hide Aggregated, MentionedFlags, ResultMentions;
    aggregation := map[];
    assert OfResults(bidder, []) == {};
    for i := 0 to |results|
      invariant MentionedFlags(OfResults(bidder, results[..i])) <= registry
      invariant aggregation == Aggregated(OfResults(bidder, results[..i]))
    {
      StepResults(bidder, results, i);
      ok, aggregation := AccumulateResult(aggregation, bidder, results[i], registry, OfResults(bidder, results[..i]));
      if !ok {
        assert OfResults(bidder, results[..i + 1]) <= OfResults(bidder, results);
        FewerFlags(OfResults(bidder, results[..i + 1]), OfResults(bidder, results));
        return;
      }
    }
    assert results[..|results|] == results;
    ok := true;
  }

  method AccumulateFindings(aggregation: map<string, Refs>, findings: seq<VerificationFinding>, registry: set<string>,
                            ghost ms: set<Mention>)
    returns (ok: bool, aggregation': map<string, Refs>)
    requires aggregation == Aggregated(ms) && MentionedFlags(ms) <= registry
    ensures ok <==> MentionedFlags(ms + OfFindings(findings)) <= registry
    ensures ok ==> aggregation' == Aggregated(ms + OfFindings(findings))
  {
    hide Aggregated, MentionedFlags, FindingMention;
    aggregation' := aggregation;
    assert ms + OfFindings([]) == ms;
    for i := 0 to |findings|
      invariant MentionedFlags(ms + OfFindings(findings[..i])) <= registry
      invariant aggregation' == Aggregated(ms + OfFindings(findings[..i]))
    {
      ghost var done := OfFindings(findings[..i]);
      StepFindings(findings, i);
      ok, aggregation' := AccumulateMention(aggregation', FindingMention(findings[i]), registry, ms + done);
      assert (ms + done) + {FindingMention(findings[i])} == ms + (done + {FindingMention(findings[i])});
      if !ok {
        assert OfFindings(findings[..i + 1]) <= OfFindings(findings);
        FewerFlags(ms + OfFindings(findings[..i + 1]), ms + OfFindings(findings));
        return;
      }
    }
    assert findings[..|findings|] == findings;
    ok := true;
  }

  method AccumulateIdentities(aggregation: map<string, Refs>, bidder: string, identities: seq<IdentityFinding>,
                              registry: set<string>,
                              ghost ms: set<Mention>)
    returns (ok: bool, aggregation': map<string, Refs>)
    requires aggregation == Aggregated(ms) && MentionedFlags(ms) <= registry
    ensures ok <==> MentionedFlags(ms + OfIdentities(bidder, identities)) <= registry
    ensures ok ==> aggregation' == Aggregated(ms + OfIdentities(bidder, identities))
  {
    hide Aggregated, MentionedFlags, IdentityMention;
    aggregation' := aggregation;
    assert ms + OfIdentities(bidder, []) == ms;
    for i := 0 to |identities|
      invariant MentionedFlags(ms + OfIdentities(bidder, identities[..i])) <= registry
      invariant aggregation' == Aggregated(ms + OfIdentities(bidder, identities[..i]))
    {
      ghost var done := OfIdentities(bidder, identities[..i]);
      StepIdentities(bidder, identities, i);
      ok, aggregation' := AccumulateMention(aggregation', IdentityMention(bidder, identities[i]), registry, ms + done);
      assert (ms + done) + {IdentityMention(bidder, identities[i])} ==
             ms + (done + {IdentityMention(bidder, identities[i])});
      if !ok {
        assert OfIdentities(bidder, identities[..i + 1]) <= OfIdentities(bidder, identities);
        FewerFlags(ms + OfIdentities(bidder, identities[..i + 1]), ms + OfIdentities(bidder, identities));
        return;
      }
    }
    assert identities[..|identities|] == identities;
    ok := true;
  }

  method ProjectFlagStates(bidder: string, o: Outputs, registry: set<string>) returns (states: Option<seq<FlagState>>)
    ensures states == Project(bidder, o, registry)
    ensures states.None? <==> exists f :: IsMentioned(o, f) && f !in registry
    ensures states.Some? ==> Shows(bidder, o, states.value)
  {
    ProjectShows(bidder, o, registry);
    hide Shows, IsMentioned, Project, ProjectMentions, Mentions;
    hide Aggregated, MentionedFlags, OfResults, OfFindings, OfIdentities, States;
    MentionsSplit(bidder, o, registry);
    var a, b := OfResults(bidder, o.results), OfFindings(o.findings);
    var all := Mentions(bidder, o);
    var ok, aggregation := AccumulateResults(bidder, o.results, registry);
    if !ok {
      FewerFlags(a, all);
      return None;
    }
    ok, aggregation := AccumulateFindings(aggregation, o.findings, registry, a);
    if !ok {
      FewerFlags(a + b, all);
      return None;
    }
    ok, aggregation := AccumulateIdentities(aggregation, bidder, o.identities, registry, a + b);
    if !ok {
      return None;
    }
    states := Some(States(bidder, aggregation));
  }

  // ----- what the projection shows -----

  lemma StatesAre(bidder: string, a: map<string, Refs>)
    ensures forall f :: f in a.Keys <==> exists s :: s in States(bidder, a) && s.flagId == f
    ensures forall i, j :: 0 <= i < j < |States(bidder, a)| ==>
              StrLe(States(bidder, a)[i].flagId, States(bidder, a)[j].flagId)
                  && States(bidder, a)[i].flagId != States(bidder, a)[j].flagId
    ensures forall i :: 0 <= i < |States(bidder, a)| ==>
              States(bidder, a)[i].flagId in a
              && States(bidder, a)[i] == StateOf(bidder, States(bidder, a)[i].flagId, a[States(bidder, a)[i].flagId])
  {
    hide StateOf, StrLe;
    var states, keys := States(bidder, a), SortedSet(a.Keys);
    hide States, SortedSet;
    StateAt(bidder, a);
    forall f | f in a.Keys ensures exists s :: s in states && s.flagId == f {
      assert f in keys;
      var k :| 0 <= k < |keys| && keys[k] == f;
      assert states[k] in states;
    }
    forall s | s in states ensures s.flagId in a.Keys {
      var k :| 0 <= k < |states| && states[k] == s;
      assert keys[k] in keys;
    }
  }

  /** A flag appears exactly when an output mentions it; the listing is strictly
      increasing, and its sorted reference lists are the unions over the mentions. */
  lemma ProjectionIs(bidder: string, o: Outputs, registry: set<string>, i: nat, j: nat)
    requires Project(bidder, o, registry).Some?
    ensures var ms, states := Mentions(bidder, o), Project(bidder, o, registry).value;
            && (forall f :: f in MentionedFlags(ms) <==> exists s :: s in states && s.flagId == f)
            && (i < j < |states| ==> StrLe(states[i].flagId, states[j].flagId) && states[i].flagId != states[j].flagId)
            && (i < |states| ==> states[i] == StateOf(bidder, states[i].flagId, RefsOf(ms, states[i].flagId)))
  {
    hide RefsOf, Mentions, MentionedFlags, Aggregated, StateOf, States, StrLe;
    var ms := Mentions(bidder, o);
    StatesAre(bidder, Aggregated(ms));
    RefsInAggregation(ms);
  }

  lemma RefsInAggregation(ms: set<Mention>)
    ensures Aggregated(ms).Keys == MentionedFlags(ms)
    ensures forall f :: f in Aggregated(ms) ==> Aggregated(ms)[f] == RefsOf(ms, f)
  {
    hide RefsOf, MentionedFlags;
  }

  lemma MentionsSplit(bidder: string, o: Outputs, registry: set<string>)
    ensures Mentions(bidder, o) ==
            OfResults(bidder, o.results) + OfFindings(o.findings) + OfIdentities(bidder, o.identities)
    ensures Project(bidder, o, registry) ==
            if MentionedFlags(Mentions(bidder, o)) <= registry
            then Some(States(bidder, Aggregated(Mentions(bidder, o)))) else None
  {
    hide OfResults, OfFindings, OfIdentities, States, Aggregated, MentionedFlags;
  }

  // ----- the listing in terms of the outputs -----

  /** Some output mentions the flag. */
  ghost predicate IsMentioned(o: Outputs, f: string) {
    || (exists r :: r in o.results && f in r.flags)
    || (exists v :: v in o.findings && v.flagId == f)
    || (exists x :: x in o.identities && x.flagId == f)
  }

  /** The id of a finding that mentions the flag: one made of the requirement and flag,
      the finding's own, or one made of the two documents. */
  ghost predicate FindingRef(bidder: string, o: Outputs, f: string, x: string) {
    || (exists r :: r in o.results && f in r.flags && x == "fnd:compliance:" + bidder + ":" + r.requirementId + ":" + f)
    || (exists v :: v in o.findings && v.flagId == f && x == v.findingId)
    || (exists d :: d in o.identities && d.flagId == f
                    && x == "fnd:identity:" + bidder + ":" + f + ":" + d.left + ":" + d.right)
  }

  ghost predicate EvidenceRef(o: Outputs, f: string, x: string) {
    || (exists r :: r in o.results && f in r.flags && x in r.evidenceRefs)
    || (exists v :: v in o.findings && v.flagId == f && x in v.evidenceRefs)
    || (exists d :: d in o.identities && d.flagId == f && x in d.evidenceRefs)
  }

  ghost predicate VerificationRef(o: Outputs, f: string, x: string) {
    || (exists r :: r in o.results && f in r.flags && x in r.verificationRefs)
    || (exists v :: v in o.findings && v.flagId == f && x in v.verificationRefs)
  }

  /** A state lists, in order, exactly the references of its flag. */
  ghost predicate ShowsFlag(bidder: string, o: Outputs, s: FlagState) {
    && s.bidderId == bidder
    && StrictlySorted(s.findingRefs) && StrictlySorted(s.evidenceRefs) && StrictlySorted(s.verificationRefs)
    && (forall x :: x in s.findingRefs <==> FindingRef(bidder, o, s.flagId, x))
    && (forall x :: x in s.evidenceRefs <==> EvidenceRef(o, s.flagId, x))
    && (forall x :: x in s.verificationRefs <==> VerificationRef(o, s.flagId, x))
  }

  ghost predicate Shows(bidder: string, o: Outputs, states: seq<FlagState>) {
    && (forall i, j :: 0 <= i < j < |states| ==>
          StrLe(states[i].flagId, states[j].flagId) && states[i].flagId != states[j].flagId)
    && (forall f :: IsMentioned(o, f) <==> exists i :: 0 <= i < |states| && states[i].flagId == f)
    && (forall i :: 0 <= i < |states| ==> ShowsFlag(bidder, o, states[i]))
  }

  lemma MentionIs(bidder: string, o: Outputs, m: Mention)
    ensures m in Mentions(bidder, o) <==>
            || (exists r, f :: r in o.results && f in r.flags && m == ResultMention(bidder, r, f))
            || (exists v :: v in o.findings && m == FindingMention(v))
            || (exists d :: d in o.identities && m == IdentityMention(bidder, d))
  {
    hide ResultMention, FindingMention, IdentityMention;
    if r, f :| r in o.results && f in r.flags && m == ResultMention(bidder, r, f) {
      assert m in ResultMentions(bidder, r);
    }
  }

  lemma FlagMentioned(bidder: string, o: Outputs, f: string)
    ensures f in MentionedFlags(Mentions(bidder, o)) <==> IsMentioned(o, f)
  {
    var ms := Mentions(bidder, o);
    forall m ensures m in ms <==>
                     || (exists r, g :: r in o.results && g in r.flags && m == ResultMention(bidder, r, g))
                     || (exists v :: v in o.findings && m == FindingMention(v))
                     || (exists d :: d in o.identities && m == IdentityMention(bidder, d)) {
      MentionIs(bidder, o, m);
    }
    hide Mentions, ComplianceFindingId, IdentityFindingId, Elements;
    if r :| r in o.results && f in r.flags { assert ResultMention(bidder, r, f) in ms; }
    if v :| v in o.findings && v.flagId == f { assert FindingMention(v) in ms; }
    if d :| d in o.identities && d.flagId == f { assert IdentityMention(bidder, d) in ms; }
  }

  lemma FindingRefs(bidder: string, o: Outputs, f: string, x: string)
    ensures x in RefsOf(Mentions(bidder, o), f).findings <==> FindingRef(bidder, o, f, x)
  {
    var ms := Mentions(bidder, o);
    hide Mentions, Elements;
    if m :| m in ms && m.flagId == f && m.finding == x {
      MentionIs(bidder, o, m);
    }
    if r :| r in o.results && f in r.flags && x == "fnd:compliance:" + bidder + ":" + r.requirementId + ":" + f {
      MentionIs(bidder, o, ResultMention(bidder, r, f));
    }
    if v :| v in o.findings && v.flagId == f && x == v.findingId {
      MentionIs(bidder, o, FindingMention(v));
    }
    if d :| && d in o.identities && d.flagId == f
            && x == "fnd:identity:" + bidder + ":" + f + ":" + d.left + ":" + d.right {
      MentionIs(bidder, o, IdentityMention(bidder, d));
    }
  }

  lemma EvidenceRefs(bidder: string, o: Outputs, f: string, x: string)
    ensures x in RefsOf(Mentions(bidder, o), f).evidence <==> EvidenceRef(o, f, x)
  {
    var ms := Mentions(bidder, o);
    hide Mentions, ComplianceFindingId, IdentityFindingId;
    if m :| m in ms && m.flagId == f && x in m.evidence {
      MentionIs(bidder, o, m);
    }
    if r :| r in o.results && f in r.flags && x in r.evidenceRefs {
      MentionIs(bidder, o, ResultMention(bidder, r, f));
    }
    if v :| v in o.findings && v.flagId == f && x in v.evidenceRefs {
      MentionIs(bidder, o, FindingMention(v));
    }
    if d :| d in o.identities && d.flagId == f && x in d.evidenceRefs {
      MentionIs(bidder, o, IdentityMention(bidder, d));
    }
  }

  lemma VerificationRefs(bidder: string, o: Outputs, f: string, x: string)
    ensures x in RefsOf(Mentions(bidder, o), f).verifications <==> VerificationRef(o, f, x)
  {
    var ms := Mentions(bidder, o);
    hide Mentions, ComplianceFindingId, IdentityFindingId;
    if m :| m in ms && m.flagId == f && x in m.verifications {
      MentionIs(bidder, o, m);
    }
    if r :| r in o.results && f in r.flags && x in r.verificationRefs {
      MentionIs(bidder, o, ResultMention(bidder, r, f));
    }
    if v :| v in o.findings && v.flagId == f && x in v.verificationRefs {
      MentionIs(bidder, o, FindingMention(v));
    }
  }

  lemma StateShowsFlag(bidder: string, o: Outputs, f: string)
    ensures ShowsFlag(bidder, o, StateOf(bidder, f, RefsOf(Mentions(bidder, o), f)))
    ensures StateOf(bidder, f, RefsOf(Mentions(bidder, o), f)).flagId == f
  {
    var refs := RefsOf(Mentions(bidder, o), f);
    forall x ensures x in refs.findings <==> FindingRef(bidder, o, f, x) { FindingRefs(bidder, o, f, x); }
    forall x ensures x in refs.evidence <==> EvidenceRef(o, f, x) { EvidenceRefs(bidder, o, f, x); }
    forall x ensures x in refs.verifications <==> VerificationRef(o, f, x) { VerificationRefs(bidder, o, f, x); }
    hide RefsOf, FindingRef, EvidenceRef, VerificationRef, SortedSet, StrLe;
  }

  lemma ProjectShows(bidder: string, o: Outputs, registry: set<string>)
    ensures Project(bidder, o, registry).None? <==> exists f :: IsMentioned(o, f) && f !in registry
    ensures Project(bidder, o, registry).Some? ==> Shows(bidder, o, Project(bidder, o, registry).value)
  {
    var ms := Mentions(bidder, o);
    forall f ensures f in MentionedFlags(ms) <==> IsMentioned(o, f) { FlagMentioned(bidder, o, f); }
    hide Mentions, MentionedFlags, Aggregated, IsMentioned, States, Shows;
    StatesShow(bidder, o);
  }

  lemma StatesShow(bidder: string, o: Outputs)
    ensures Shows(bidder, o, States(bidder, Aggregated(Mentions(bidder, o))))
  {
    hide Mentions, MentionedFlags, Aggregated, IsMentioned, RefsOf, States, StateOf, ShowsFlag, StrLe, Shows;
    var ms := Mentions(bidder, o);
    FlagsMentioned(bidder, o);
    RefsInAggregation(ms);
    StatesAre(bidder, Aggregated(ms));
    ShowsFrom(bidder, o, States(bidder, Aggregated(ms)));
  }

  lemma FlagsMentioned(bidder: string, o: Outputs)
    ensures forall f :: f in MentionedFlags(Mentions(bidder, o)) <==> IsMentioned(o, f)
  {
    hide Mentions, MentionedFlags, IsMentioned;
    forall f ensures f in MentionedFlags(Mentions(bidder, o)) <==> IsMentioned(o, f) {
      FlagMentioned(bidder, o, f);
    }
  }

  lemma ShowsFrom(bidder: string, o: Outputs, states: seq<FlagState>)
    requires forall i, j :: 0 <= i < j < |states| ==>
               StrLe(states[i].flagId, states[j].flagId) && states[i].flagId != states[j].flagId
    requires forall f :: IsMentioned(o, f) <==> exists s :: s in states && s.flagId == f
    requires forall i :: 0 <= i < |states| ==>
               states[i] == StateOf(bidder, states[i].flagId, RefsOf(Mentions(bidder, o), states[i].flagId))
    ensures Shows(bidder, o, states)
  {
    hide Mentions, IsMentioned, RefsOf, StateOf, ShowsFlag, StrLe;
    forall i | 0 <= i < |states| ensures ShowsFlag(bidder, o, states[i]) {
      StateShowsFlag(bidder, o, states[i].flagId);
    }
    forall f ensures IsMentioned(o, f) <==> exists i :: 0 <= i < |states| && states[i].flagId == f {
      if IsMentioned(o, f) {
        var s :| s in states && s.flagId == f;
      }
      if i :| 0 <= i < |states| && states[i].flagId == f {
        assert states[i] in states;
      }
    }
  }

  function Append(a: Outputs, b: Outputs): Outputs {
    Outputs(a.results + b.results, a.findings + b.findings, a.identities + b.identities)
  }

  /** Flag-wise union of two aggregations. */
  function Merge(a: map<string, Refs>, b: map<string, Refs>): map<string, Refs> {
    map f | f in a.Keys + b.Keys ::
      if f !in b then a[f] else if f !in a then b[f] else JoinRefs(a[f], b[f])
  }

  lemma MentionsAppend(bidder: string, a: Outputs, b: Outputs)
    ensures Mentions(bidder, Append(a, b)) == Mentions(bidder, a) + Mentions(bidder, b)
  {
    hide ResultMentions, FindingMention, IdentityMention;
    assert OfResults(bidder, a.results + b.results) == OfResults(bidder, a.results) + OfResults(bidder, b.results);
    assert OfFindings(a.findings + b.findings) == OfFindings(a.findings) + OfFindings(b.findings);
    assert OfIdentities(bidder, a.identities + b.identities) ==
           OfIdentities(bidder, a.identities) + OfIdentities(bidder, b.identities);
  }

  lemma AggregatedUnion(a: set<Mention>, b: set<Mention>)
    ensures Aggregated(a + b) == Merge(Aggregated(a), Aggregated(b))
  {
    hide RefsOf, MentionedFlags, Aggregated;
    FlagsAdd(a, b);
    RefsInAggregation(a);
    RefsInAggregation(b);
    RefsInAggregation(a + b);
    var x, y := Aggregated(a + b), Merge(Aggregated(a), Aggregated(b));
    forall f | f in x ensures f in y && x[f] == y[f] {
      RefsAdd(a, b, f);
      NoRefs(a, f);
      NoRefs(b, f);
    }
    assert x.Keys == y.Keys;
  }

  /** The flags of a listing. */
  function ListedFlags(states: seq<FlagState>): set<string> {
    set s | s in states :: s.flagId
  }

  /** The references a listing gives for a flag; none for a flag it does not have. */
  function Listed(states: seq<FlagState>, flag: string): Refs {
    Refs(set s, x | s in states && s.flagId == flag && x in s.findingRefs :: x,
         set s, x | s in states && s.flagId == flag && x in s.evidenceRefs :: x,
         set s, x | s in states && s.flagId == flag && x in s.verificationRefs :: x)
  }

  lemma SingleListed(states: seq<FlagState>, s: FlagState)
    requires s in states && forall z :: z in states && z.flagId == s.flagId ==> z == s
    ensures Listed(states, s.flagId) ==
            Refs(Elements(s.findingRefs), Elements(s.evidenceRefs), Elements(s.verificationRefs))
  {
  }

  lemma StateShows(bidder: string, flag: string, r: Refs)
    ensures var s := StateOf(bidder, flag, r);
            Refs(Elements(s.findingRefs), Elements(s.evidenceRefs), Elements(s.verificationRefs)) == r
  {
    hide SortedSet;
  }

  /** A listing shows all of the aggregation it was made from. */
  lemma ListedIs(bidder: string, a: map<string, Refs>, flag: string)
    ensures ListedFlags(States(bidder, a)) == a.Keys
    ensures Listed(States(bidder, a), flag) == if flag in a then a[flag] else Refs({}, {}, {})
  {
    var states := States(bidder, a);
    hide StrLe, States, SortedSet, StateOf, Elements;
    StatesAre(bidder, a);
    assert ListedFlags(states) == a.Keys;
    if flag in a {
      var s :| s in states && s.flagId == flag;
      forall z | z in states && z.flagId == flag ensures z == StateOf(bidder, flag, a[flag]) {
        var i :| 0 <= i < |states| && states[i] == z;
      }
      StateShows(bidder, flag, a[flag]);
      hide Listed;
      SingleListed(states, s);
    } else {
      assert forall z :: z in states ==> z.flagId in ListedFlags(states);
    }
  }

  lemma MergeIs(a: map<string, Refs>, b: map<string, Refs>, f: string)
    ensures f in Merge(a, b) <==> f in a || f in b
    ensures f in Merge(a, b) ==>
              Merge(a, b)[f] == JoinRefs(if f in a then a[f] else Refs({}, {}, {}),
                                         if f in b then b[f] else Refs({}, {}, {}))
  {
  }

  /** `c` is the flag-wise union of two listings: its flags are those of either,
      strictly increasing, each with the sorted union of its references in both. */
  ghost predicate IsUnion(bidder: string, a: seq<FlagState>, b: seq<FlagState>, c: seq<FlagState>) {
    && ListedFlags(c) == ListedFlags(a) + ListedFlags(b)
    && (forall i, j :: 0 <= i < j < |c| ==> StrLe(c[i].flagId, c[j].flagId) && c[i].flagId != c[j].flagId)
    && (forall i :: 0 <= i < |c| ==>
        c[i] == StateOf(bidder, c[i].flagId, JoinRefs(Listed(a, c[i].flagId), Listed(b, c[i].flagId))))
  }

  lemma MergedFlags(bidder: string, a: map<string, Refs>, b: map<string, Refs>)
    ensures ListedFlags(States(bidder, Merge(a, b))) == ListedFlags(States(bidder, a)) + ListedFlags(States(bidder, b))
  {
    hide States, Listed, ListedFlags;
    ListedIs(bidder, a, "");
    ListedIs(bidder, b, "");
    ListedIs(bidder, Merge(a, b), "");
  }

  lemma MergedRefs(bidder: string, a: map<string, Refs>, b: map<string, Refs>, f: string)
    requires f in Merge(a, b)
    ensures Merge(a, b)[f] == JoinRefs(Listed(States(bidder, a), f), Listed(States(bidder, b), f))
  {
    hide States, Listed, ListedFlags, Merge, JoinRefs;
    MergeIs(a, b, f);
    ListedIs(bidder, a, f);
    ListedIs(bidder, b, f);
  }

  lemma MergedListing(bidder: string, a: map<string, Refs>, b: map<string, Refs>)
    ensures IsUnion(bidder, States(bidder, a), States(bidder, b), States(bidder, Merge(a, b)))
  {
    var x, y, m := States(bidder, a), States(bidder, b), Merge(a, b);
    var z := States(bidder, m);
    hide StrLe, States, SortedSet, StateOf, Merge, Listed, ListedFlags, JoinRefs;
    MergedFlags(bidder, a, b);
    StatesAre(bidder, m);
    forall i | 0 <= i < |z| ensures z[i] ==
        StateOf(bidder, z[i].flagId, JoinRefs(Listed(x, z[i].flagId), Listed(y, z[i].flagId))) {
      MergedRefs(bidder, a, b, z[i].flagId);
    }
  }

  /** Projection is a homomorphism: projecting concatenated outputs gives the
      flag-wise union of the two projected listings, and fails exactly when one of
      the two projections does. */
  lemma ProjectionIsHomomorphism(bidder: string, a: Outputs, b: Outputs, registry: set<string>)
    ensures var x, y, z := Project(bidder, a, registry), Project(bidder, b, registry),
            Project(bidder, Append(a, b), registry);
            && (z.Some? <==> x.Some? && y.Some?)
            && (z.Some? ==> IsUnion(bidder, x.value, y.value, z.value))
  {
    hide ProjectMentions, Mentions, IsUnion, Append;
    MentionsAppend(bidder, a, b);
    ProjectionOfUnion(bidder, Mentions(bidder, a), Mentions(bidder, b), registry);
  }

  lemma ProjectionOfUnion(bidder: string, a: set<Mention>, b: set<Mention>, registry: set<string>)
    ensures var x, y, z := ProjectMentions(bidder, a, registry), ProjectMentions(bidder, b, registry),
            ProjectMentions(bidder, a + b, registry);
            && (z.Some? <==> x.Some? && y.Some?)
            && (z.Some? ==> IsUnion(bidder, x.value, y.value, z.value))
  {
    hide States, Aggregated, MentionedFlags, IsUnion;
    FlagsAdd(a, b);
    UnionListing(bidder, a, b);
  }

  lemma UnionListing(bidder: string, x: set<Mention>, y: set<Mention>)
    ensures IsUnion(bidder, States(bidder, Aggregated(x)), States(bidder, Aggregated(y)),
                    States(bidder, Aggregated(x + y)))
  {
    hide States, Aggregated, Merge, IsUnion;
    AggregatedUnion(x, y);
    MergedListing(bidder, Aggregated(x), Aggregated(y));
  }

  /** The union of two listings is determined by them. */
  lemma UnionUnique(bidder: string, a: seq<FlagState>, b: seq<FlagState>, c: seq<FlagState>, d: seq<FlagState>)
    requires IsUnion(bidder, a, b, c) && IsUnion(bidder, a, b, d)
    ensures c == d
  {
    hide StrLe, StateOf, Listed, JoinRefs;
    var ks, ls := FlagSeq(c), FlagSeq(d);
    FlagSeqMembers(c);
    FlagSeqMembers(d);
    StrictlySortedUnique(ks, ls);
    assert |c| == |ks| == |d|;
    forall i | 0 <= i < |c| ensures c[i] == d[i] {
      assert ks[i] == ls[i];
    }
  }

  function FlagSeq(s: seq<FlagState>): (r: seq<string>)
    ensures |r| == |s| && forall i :: 0 <= i < |s| ==> r[i] == s[i].flagId
  {
    seq(|s|, i requires 0 <= i < |s| => s[i].flagId)
  }

  lemma FlagSeqMembers(s: seq<FlagState>)
    ensures forall f :: f in FlagSeq(s) <==> f in ListedFlags(s)
  {
    forall f | f in ListedFlags(s) ensures f in FlagSeq(s) {
      var x :| x in s && x.flagId == f;
      var i :| 0 <= i < |s| && s[i] == x;
      assert FlagSeq(s)[i] == f;
    }
    forall f | f in FlagSeq(s) ensures f in ListedFlags(s) {
      var i :| 0 <= i < |s| && FlagSeq(s)[i] == f;
      assert s[i] in s;
    }
  }

  /** Permuting the outputs changes nothing. */
  lemma ProjectionIgnoresOrder(bidder: string, a: Outputs, b: Outputs, registry: set<string>)
    requires multiset(a.results) == multiset(b.results)
    requires multiset(a.findings) == multiset(b.findings)
    requires multiset(a.identities) == multiset(b.identities)
    ensures Project(bidder, a, registry) == Project(bidder, b, registry)
  {
    hide States, Aggregated, MentionedFlags, ResultMentions, FindingMention, IdentityMention;
    InMultiset(a.results, b.results);
    InMultiset(a.findings, b.findings);
    InMultiset(a.identities, b.identities);
    assert OfResults(bidder, a.results) == OfResults(bidder, b.results);
    assert OfFindings(a.findings) == OfFindings(b.findings);
    assert OfIdentities(bidder, a.identities) == OfIdentities(bidder, b.identities);
  }
}
