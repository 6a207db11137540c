/** Bidder risk aggregation (src/ai_verification/risk): deduplication of correlated
    signals, strongest-signal selection, capped boost and the four-state verdict.
    A correlation key is represented by its JSON text, which identifies it. */
module RiskAggregation {
  import opened Ordering
  import opened Vocabulary

  datatype FlagSeverity = INFO | LOW | MEDIUM | HIGH | CRITICAL

  datatype RiskState = CLEAR | REVIEW | HIGH_RISK | INDETERMINATE

  datatype EvidenceState = VERIFIED | INSUFFICIENT | UNAVAILABLE

  datatype ReasonCode =
    | NO_RISK_SIGNALS_PRESENT
    | STRONGEST_SEVERITY(severity: FlagSeverity)
    | INDEPENDENT_SUPPORTING_SIGNALS
    | CORRELATED_SIGNALS_DEDUPLICATED
    | EVIDENCE_QUALITY_UNKNOWN
    | EVIDENCE_QUALITY_DEGRADED
    | NO_VERIFICATIONS_PRESENT
    | CRITICAL_VERIFICATIONS_UNAVAILABLE
    | INDETERMINATE_OVERRIDES_HIGH_RISK

  /** `severity` is None for a text outside the canonical vocabulary. */
  datatype RiskSignal = RiskSignal(
    signalId: string,
    key: string,
    severity: Option<FlagSeverity>,
    score: real,
    actionable: bool
  )

  datatype Availability = Availability(criticalPresent: bool, overall: EvidenceState)

  datatype Assessment = Assessment(
    state: RiskState,
    score: real,
    signals: seq<RiskSignal>,
    strongest: Option<RiskSignal>,
    supporting: seq<RiskSignal>,
    suppressed: int,
    reasons: seq<ReasonCode>
  )

  const SUPPORTING_BOOST_CAP := 0.30
  const SUPPORTING_BOOST_PER_SIGNAL := 0.05
  const REVIEW_THRESHOLD := 0.30
  const HIGH_RISK_THRESHOLD := 0.60

  function SeverityWeight(s: Option<FlagSeverity>): real {
    match s
    case None => 0.0
    case Some(CRITICAL) => 1.0
    case Some(HIGH) => 0.9
    case Some(MEDIUM) => 0.6
    case Some(LOW) => 0.3
    case Some(INFO) => 0.1
  }

  function SeverityRank(s: Option<FlagSeverity>): int {
    match s
    case None => -1
    case Some(CRITICAL) => 4
    case Some(HIGH) => 3
    case Some(MEDIUM) => 2
    case Some(LOW) => 1
    case Some(INFO) => 0
  }

  predicate ById(a: RiskSignal, b: RiskSignal) {
    StrLe(a.signalId, b.signalId)
  }

  /** Higher score first, then higher severity rank, then smaller id. */
  predicate ByStrength(a: RiskSignal, b: RiskSignal) {
    a.score > b.score
    || (a.score == b.score
        && (SeverityRank(a.severity) > SeverityRank(b.severity)
            || (SeverityRank(a.severity) == SeverityRank(b.severity) && StrLe(a.signalId, b.signalId))))
  }

  lemma SignalOrders()
    ensures TotalPreorder(ById)
    ensures TotalPreorder(ByStrength)
  {
    forall a, b ensures ById(a, b) || ById(b, a) { StrLeTotal(a.signalId, b.signalId); }
    forall a, b ensures ByStrength(a, b) || ByStrength(b, a) { StrLeTotal(a.signalId, b.signalId); }
    forall a, b, c | ById(a, b) && ById(b, c) ensures ById(a, c) {
      StrLeTransitive(a.signalId, b.signalId, c.signalId);
    }
    forall a, b, c | ByStrength(a, b) && ByStrength(b, c) ensures ByStrength(a, c) {
      StrengthTransitive(a, b, c);
    }
  }

  lemma StrengthTransitive(a: RiskSignal, b: RiskSignal, c: RiskSignal)
    requires ByStrength(a, b) && ByStrength(b, c)
    ensures ByStrength(a, c)
  {
    if StrLe(a.signalId, b.signalId) && StrLe(b.signalId, c.signalId) {
      StrLeTransitive(a.signalId, b.signalId, c.signalId);
    }
  }

  lemma StrengthAntisymmetric(a: RiskSignal, b: RiskSignal)
    requires ByStrength(a, b) && ByStrength(b, a)
    ensures a.signalId == b.signalId
  {
    StrLeAntisymmetric(a.signalId, b.signalId);
  }

  // ----- deduplication -----

  function Bucket(s: seq<RiskSignal>, k: string): seq<RiskSignal> {
    if s == [] then []
    else if s[0].key == k then [s[0]] + Bucket(s[1..], k)
    else Bucket(s[1..], k)
  }

  function Keys(s: seq<RiskSignal>): set<string> {
    set x | x in s :: x.key
  }

  function KeySeq(s: seq<RiskSignal>): (r: seq<string>)
    ensures |r| == |s| && forall i :: 0 <= i < |s| ==> r[i] == s[i].key
  {
    seq(|s|, i requires 0 <= i < |s| => s[i].key)
  }

  /** At least as strong as every signal of its key. */
  ghost predicate Strongest(r: RiskSignal, signals: seq<RiskSignal>) {
    r in signals && forall s :: s in signals && s.key == r.key ==> ByStrength(r, s)
  }

  /** Strongest of its key, and strictly stronger than those of its key before it. */
  ghost predicate LeadsAt(r: RiskSignal, signals: seq<RiskSignal>, i: nat) {
    && i < |signals| && signals[i] == r
    && (forall j :: 0 <= j < |signals| && signals[j].key == r.key ==> ByStrength(r, signals[j]))
    && (forall j :: 0 <= j < i && signals[j].key == r.key ==> !ByStrength(signals[j], r))
  }

  ghost predicate Leads(r: RiskSignal, signals: seq<RiskSignal>) {
    exists i: nat :: LeadsAt(r, signals, i)
  }

  /** What a deduplicated listing is: one survivor for each key, in key order, and
      each the strongest of its key; of equally strong ones, the first given. */
  ghost predicate IsDedup(signals: seq<RiskSignal>, survivors: seq<RiskSignal>) {
    && StrictlySorted(KeySeq(survivors))
    && Keys(survivors) == Keys(signals)
    && forall r :: r in survivors ==> Leads(r, signals)
  }

  function Prefer(a: RiskSignal, b: Option<RiskSignal>): RiskSignal {
    if b.None? || ByStrength(a, b.value) then a else b.value
  }

  /** The survivor of key `k`. */
  function Leader(s: seq<RiskSignal>, k: string): Option<RiskSignal> {
    if s == [] then None
    else if s[0].key == k then Some(Prefer(s[0], Leader(s[1..], k)))
    else Leader(s[1..], k)
  }

  function LeadersOf(signals: seq<RiskSignal>, keys: seq<string>): seq<RiskSignal> {
    if keys == [] then []
    else
      var before, l := LeadersOf(signals, keys[..|keys| - 1]), Leader(signals, keys[|keys| - 1]);
      if l.None? then before else before + [l.value]
  }

  /** The deduplicated signals. */
  function Survivors(signals: seq<RiskSignal>): seq<RiskSignal> {
    LeadersOf(signals, SortedSet(Keys(signals)))
  }

  lemma {:induction false} BucketSnoc(s: seq<RiskSignal>, x: RiskSignal, k: string)
    ensures Bucket(s + [x], k) == Bucket(s, k) + (if x.key == k then [x] else [])
  {
    if s == [] {
      assert s + [x] == [x];
    } else {
      assert (s + [x])[1..] == s[1..] + [x];
      BucketSnoc(s[1..], x, k);
    }
  }

  lemma {:induction false} BucketMembers(s: seq<RiskSignal>, k: string)
    ensures forall x :: x in Bucket(s, k) <==> x in s && x.key == k
  {
    if s != [] {
      BucketMembers(s[1..], k);
      assert forall x :: x in s <==> x == s[0] || x in s[1..];
    }
  }

  function BucketTotal(s: seq<RiskSignal>, keys: seq<string>): nat {
    if keys == [] then 0 else |Bucket(s, keys[0])| + BucketTotal(s, keys[1..])
  }

  lemma {:induction false} BucketTotalSnoc(s: seq<RiskSignal>, keys: seq<string>, k: string)
    ensures BucketTotal(s, keys + [k]) == BucketTotal(s, keys) + |Bucket(s, k)|
  {
    if keys == [] {
      assert keys + [k] == [k];
    } else {
      assert (keys + [k])[1..] == keys[1..] + [k];
      BucketTotalSnoc(s, keys[1..], k);
    }
  }

  lemma {:induction false} BucketTotalCons(s: seq<RiskSignal>, keys: seq<string>)
    requires s != [] && forall i, j :: 0 <= i < j < |keys| ==> keys[i] != keys[j]
    ensures BucketTotal(s, keys) == BucketTotal(s[1..], keys) + (if s[0].key in keys then 1 else 0)
  {
    if keys != [] {
      BucketTotalCons(s, keys[1..]);
      assert s[0].key in keys <==> s[0].key == keys[0] || s[0].key in keys[1..];
    }
  }

  /** The buckets of all keys partition the signals. */
  lemma {:induction false} BucketsPartition(s: seq<RiskSignal>, keys: seq<string>)
    requires forall i, j :: 0 <= i < j < |keys| ==> keys[i] != keys[j]
    requires forall x :: x in s ==> x.key in keys
    ensures BucketTotal(s, keys) == |s|
  {
    if s == [] {
      EmptyTotal(keys);
    } else {
      BucketTotalCons(s, keys);
      BucketsPartition(s[1..], keys);
    }
  }

  lemma EmptyTotal(keys: seq<string>)
    ensures BucketTotal([], keys) == 0
  {
  }

  /** The head of a sorted bucket is the leader of its key. */
  lemma {:induction false} BucketHead(s: seq<RiskSignal>, k: string)
    ensures var b := SortBy(Bucket(s, k), ByStrength);
            Leader(s, k) == if b == [] then None else Some(b[0])
  {
    hide ByStrength;
    if s != [] {
      BucketHead(s[1..], k);
      if s[0].key == k {
        assert ([s[0]] + Bucket(s[1..], k))[1..] == Bucket(s[1..], k);
      }
    }
  }

  lemma PreferSwap(a: RiskSignal, b: RiskSignal, c: Option<RiskSignal>)
    requires a.signalId != b.signalId
    ensures Prefer(a, Some(Prefer(b, c))) == Prefer(b, Some(Prefer(a, c)))
  {
    StrLeTotal(a.signalId, b.signalId);
    if StrLe(a.signalId, b.signalId) && StrLe(b.signalId, a.signalId) { StrLeAntisymmetric(a.signalId, b.signalId); }
    if c.Some? {
      PreferChain(a, b, c.value);
      PreferChain(b, a, c.value);
    }
  }

  lemma PreferChain(a: RiskSignal, b: RiskSignal, c: RiskSignal)
    ensures ByStrength(a, b) && ByStrength(b, c) ==> ByStrength(a, c)
    ensures ByStrength(c, b) && ByStrength(b, a) ==> ByStrength(c, a)
    ensures ByStrength(a, c) || ByStrength(c, a)
    ensures ByStrength(b, c) || ByStrength(c, b)
    ensures ByStrength(a, c) && ByStrength(c, b) ==> ByStrength(a, b)
  {
    SignalOrders();
  }

  lemma {:induction false} InsertKeepsLeader(x: RiskSignal, s: seq<RiskSignal>, k: string)
    ensures Leader(Insert(x, s, ById), k) == Leader([x] + s, k)
  {
    hide ByStrength, Prefer;
    assert ([x] + s)[1..] == s;
    if s != [] && !ById(x, s[0]) {
      var ins, rest := Insert(x, s[1..], ById), [x] + s[1..];
      assert ([s[0]] + ins)[1..] == ins && rest[1..] == s[1..];
      InsertKeepsLeader(x, s[1..], k);
      StrLeTotal(x.signalId, x.signalId);
      PreferSwap(x, s[0], Leader(s[1..], k));
    }
  }

  /** Sorting by id moves no two signals of the same id past each other. */
  lemma {:induction false} SortKeepsLeader(s: seq<RiskSignal>, k: string)
    ensures Leader(SortBy(s, ById), k) == Leader(s, k)
  {
    hide ByStrength, Prefer, ById;
    if s != [] {
      var rest := SortBy(s[1..], ById);
      SortKeepsLeader(s[1..], k);
      InsertKeepsLeader(s[0], rest, k);
      assert ([s[0]] + rest)[1..] == rest;
    }
  }

  lemma {:induction false} LeaderLeads(s: seq<RiskSignal>, k: string)
    ensures Leader(s, k).None? <==> k !in Keys(s)
    ensures Leader(s, k).Some? ==> Leader(s, k).value.key == k && Leads(Leader(s, k).value, s)
  {
    hide ByStrength;
    if s != [] {
      var l := Leader(s[1..], k);
      LeaderLeads(s[1..], k);
      assert forall x :: x in s <==> x == s[0] || x in s[1..];
      if l.Some? {
        var i: nat :| LeadsAt(l.value, s[1..], i);
        LeadsCons(s, l.value, i);
      } else if s[0].key == k {
        StrengthReflexive(s[0]);
        assert forall j :: 0 < j < |s| ==> s[j] in s[1..];
        assert LeadsAt(s[0], s, 0);
      }
    }
  }

  lemma StrengthReflexive(a: RiskSignal)
    ensures ByStrength(a, a)
  {
    StrLeTotal(a.signalId, a.signalId);
  }

  lemma LeadsCons(s: seq<RiskSignal>, l: RiskSignal, i: nat)
    requires s != [] && LeadsAt(l, s[1..], i)
    ensures s[0].key != l.key ==> Leads(l, s)
    ensures s[0].key == l.key ==> Leads(Prefer(s[0], Some(l)), s)
  {
    SignalOrders();
    hide ByStrength;
    assert forall j :: 0 < j < |s| ==> s[j] == s[1..][j - 1];
    if s[0].key == l.key && ByStrength(s[0], l) {
      assert LeadsAt(s[0], s, 0);
    } else {
      assert LeadsAt(l, s, i + 1);
    }
  }

  lemma LeaderUnique(a: seq<RiskSignal>, x: RiskSignal, y: RiskSignal)
    requires Leads(x, a) && Leads(y, a) && x.key == y.key
    ensures x == y
  {
    hide ByStrength;
    var i: nat :| LeadsAt(x, a, i);
    var j: nat :| LeadsAt(y, a, j);
    assert a[i] == x && a[j] == y;
  }

  lemma {:induction false} LeadersOfAre(signals: seq<RiskSignal>, keys: seq<string>)
    requires forall k :: k in keys ==> k in Keys(signals)
    ensures KeySeq(LeadersOf(signals, keys)) == keys
    ensures forall r :: r in LeadersOf(signals, keys) ==> Leads(r, signals)
  {
    if keys != [] {
      var init, k := keys[..|keys| - 1], keys[|keys| - 1];
      hide Leads, Keys, Leader;
      LeadersOfAre(signals, init);
      LeaderLeads(signals, k);
      assert keys == init + [k];
    }
  }

  /** The survivors are a deduplicated listing, and the only one. */
  lemma SurvivorsAre(signals: seq<RiskSignal>, r: seq<RiskSignal>)
    ensures IsDedup(signals, r) <==> r == Survivors(signals)
  {
    var keys := SortedSet(Keys(signals));
    var own := Survivors(signals);
    hide Leads, SortedSet, LeadersOf;
    LeadersOfAre(signals, keys);
    KeySeqMembers(own);
    assert IsDedup(signals, own);
    if IsDedup(signals, r) {
      SameKeySeq(own, r);
      assert |KeySeq(own)| == |own| == |r|;
      forall i | 0 <= i < |own| ensures own[i] == r[i] {
        assert KeySeq(own)[i] == KeySeq(r)[i];
        assert own[i] in own && r[i] in r;
        LeaderUnique(signals, own[i], r[i]);
      }
    }
  }

  lemma HeadIsBest(s: seq<RiskSignal>)
    requires s != []
    ensures var b := SortBy(s, ByStrength);
            |b| > 0 && b[0] in s && forall x :: x in s ==> ByStrength(b[0], x)
  {
    SignalOrders();
    var b := SortBy(s, ByStrength);
    SortKeeps(s, ByStrength);
    InMultiset(b, s);
    forall x | x in s ensures ByStrength(b[0], x) {
      assert x in b;
      var i :| 0 <= i < |b| && b[i] == x;
      StrLeTotal(x.signalId, x.signalId);
      assert i == 0 || ByStrength(b[0], b[i]);
    }
  }

  method GroupByKey(ordered: seq<RiskSignal>) returns (groups: map<string, seq<RiskSignal>>)
    ensures groups.Keys == Keys(ordered)
    ensures forall k :: k in groups ==> groups[k] == Bucket(ordered, k) && groups[k] != []
  {
    hide Bucket, Keys;
    EmptyBucket();
    groups := map[];
    for i := 0 to |ordered|
      invariant groups.Keys == Keys(ordered[..i])
      invariant forall k :: k in groups ==> groups[k] == Bucket(ordered[..i], k) && groups[k] != []
    {
      var s := ordered[i];
      BucketStep(ordered, i);
      groups := groups[s.key := (if s.key in groups then groups[s.key] else []) + [s]];
    }
    assert ordered[..|ordered|] == ordered;
  }

  lemma EmptyBucket()
    ensures Keys([]) == {}
  {
  }

  lemma BucketStep(s: seq<RiskSignal>, i: nat)
    requires i < |s|
    ensures Keys(s[..i + 1]) == Keys(s[..i]) + {s[i].key}
    ensures forall k :: Bucket(s[..i + 1], k) == Bucket(s[..i], k) + (if s[i].key == k then [s[i]] else [])
    ensures s[i].key !in Keys(s[..i]) ==> Bucket(s[..i], s[i].key) == []
  {
    assert s[..i + 1] == s[..i] + [s[i]];
    forall k ensures Bucket(s[..i + 1], k) == Bucket(s[..i], k) + (if s[i].key == k then [s[i]] else []) {
      BucketSnoc(s[..i], s[i], k);
    }
    BucketMembers(s[..i], s[i].key);
    assert Bucket(s[..i], s[i].key) != [] ==> Bucket(s[..i], s[i].key)[0] in s[..i];
  }

  method Deduplicate(signals: seq<RiskSignal>) returns (survivors: seq<RiskSignal>, suppressed: int)
    ensures survivors == Survivors(signals) && IsDedup(signals, survivors)
    ensures |survivors| + suppressed == |signals|
  {
    hide BucketTotal, IsDedup, ByStrength, ById, SortBy, Bucket, Leader, StrLe, SortedSet;
    EmptyBuckets(signals);
    var ordered := SortBy(signals, ById);
    SortKeeps(signals, ById);
    var groups := GroupByKey(ordered);
    var keys := SortedSet(groups.Keys);
    survivors, suppressed := [], 0;
    for i := 0 to |keys|
      invariant survivors == LeadersOf(signals, keys[..i]) && |survivors| == i
      invariant i + suppressed == BucketTotal(ordered, keys[..i])
    {
      var bucket := groups[keys[i]];
      SortKeeps(bucket, ByStrength);
      BucketHead(ordered, keys[i]);
      SortKeepsLeader(signals, keys[i]);
      BucketTotalStep(ordered, keys, i);
      assert keys[..i + 1][..i] == keys[..i];
      survivors := survivors + [SortBy(bucket, ByStrength)[0]];
      suppressed := suppressed + |bucket| - 1;
    }
    assert keys[..|keys|] == keys;
    DedupDone(signals, ordered, keys);
    SurvivorsAre(signals, survivors);
  }

  lemma EmptyBuckets(signals: seq<RiskSignal>)
    ensures BucketTotal(SortBy(signals, ById), []) == 0
  {
  }

  lemma BucketTotalStep(s: seq<RiskSignal>, keys: seq<string>, i: nat)
    requires i < |keys|
    ensures BucketTotal(s, keys[..i + 1]) == BucketTotal(s, keys[..i]) + |Bucket(s, keys[i])|
    ensures keys[..i + 1] == keys[..i] + [keys[i]]
  {
    assert keys[..i + 1] == keys[..i] + [keys[i]];
    BucketTotalSnoc(s, keys[..i], keys[i]);
  }

  lemma DedupDone(signals: seq<RiskSignal>, ordered: seq<RiskSignal>, keys: seq<string>)
    requires multiset(ordered) == multiset(signals) && keys == SortedSet(Keys(ordered))
    ensures Keys(ordered) == Keys(signals)
    ensures BucketTotal(ordered, keys) == |signals|
  {
    InMultiset(ordered, signals);
    BucketsPartition(ordered, keys);
  }

  lemma KeySeqMembers(s: seq<RiskSignal>)
    ensures forall k :: k in KeySeq(s) <==> k in Keys(s)
  {
    forall k | k in KeySeq(s) ensures k in Keys(s) {
      var i :| 0 <= i < |s| && KeySeq(s)[i] == k;
      assert s[i] in s;
    }
    forall k | k in Keys(s) ensures k in KeySeq(s) {
      var x :| x in s && x.key == k;
      var i :| 0 <= i < |s| && s[i] == x;
      assert KeySeq(s)[i] == k;
    }
  }

  /** No two different signals share key and id. */
  ghost predicate DistinctIds(s: seq<RiskSignal>) {
    forall a, b :: a in s && b in s && a.key == b.key && a.signalId == b.signalId ==> a == b
  }

  /** No two different signals tie for the best place of a key. */
  ghost predicate NoTies(s: seq<RiskSignal>) {
    forall a, b :: Strongest(a, s) && Strongest(b, s) && a.key == b.key ==> a == b
  }

  lemma DistinctIdsNeverTie(s: seq<RiskSignal>)
    requires DistinctIds(s)
    ensures NoTies(s)
  {
    forall a, b | Strongest(a, s) && Strongest(b, s) && a.key == b.key ensures a == b {
      StrengthAntisymmetric(a, b);
    }
  }

  lemma SameKeySeq(ra: seq<RiskSignal>, rb: seq<RiskSignal>)
    requires StrictlySorted(KeySeq(ra)) && StrictlySorted(KeySeq(rb)) && Keys(ra) == Keys(rb)
    ensures KeySeq(ra) == KeySeq(rb)
  {
    KeySeqMembers(ra);
    KeySeqMembers(rb);
    StrictlySortedUnique(KeySeq(ra), KeySeq(rb));
  }

  lemma LeaderIsStrongest(r: RiskSignal, a: seq<RiskSignal>, b: seq<RiskSignal>)
    requires Leads(r, a) && forall x :: x in a <==> x in b
    ensures Strongest(r, b)
  {
    hide ByStrength;
    var i: nat :| LeadsAt(r, a, i);
    assert a[i] in a;
    forall s | s in b && s.key == r.key ensures ByStrength(r, s) {
      assert s in a;
    }
  }

  /** Without ties the survivors depend on the set of signals alone. */
  lemma DedupUnique(a: seq<RiskSignal>, b: seq<RiskSignal>)
    requires NoTies(a) && forall x :: x in a <==> x in b
    ensures Survivors(a) == Survivors(b)
  {
    var ra, rb := Survivors(a), Survivors(b);
    hide Survivors, Leads, Strongest;
    SurvivorsAre(a, ra);
    SurvivorsAre(b, rb);
    assert Keys(a) == Keys(b);
    SameKeySeq(ra, rb);
    assert |KeySeq(ra)| == |ra| == |rb|;
    forall i | 0 <= i < |ra| ensures ra[i] == rb[i] {
      assert KeySeq(ra)[i] == KeySeq(rb)[i];
      assert ra[i] in ra && rb[i] in rb;
      LeaderIsStrongest(ra[i], a, a);
      LeaderIsStrongest(rb[i], b, a);
    }
  }

  /** One of the strongest of its key survives some ordering of the signals. */
  lemma SurvivesInFront(a: seq<RiskSignal>, x: RiskSignal) returns (b: seq<RiskSignal>)
    requires Strongest(x, a)
    ensures multiset(b) == multiset(a)
    ensures x in Survivors(b)
  {
    var i :| 0 <= i < |a| && a[i] == x;
    b := [x] + (a[..i] + a[i + 1..]);
    assert a == a[..i] + [x] + a[i + 1..];
    InMultiset(b, a);
    forall j | 0 <= j < |b| && b[j].key == x.key ensures ByStrength(x, b[j]) {
      assert b[j] in a;
    }
    assert LeadsAt(x, b, 0);
    hide Survivors, Leads, Strongest;
    SurvivorsAre(b, Survivors(b));
    assert x.key in Keys(b);
    var y :| y in Survivors(b) && y.key == x.key;
    LeaderUnique(b, x, y);
  }

  /** Deduplication ignores input order exactly for signals without ties. */
  lemma DedupOrderIrrelevantIff(a: seq<RiskSignal>)
    ensures (forall b :: multiset(b) == multiset(a) ==> Survivors(b) == Survivors(a)) <==> NoTies(a)
  {
    hide Survivors, Strongest;
    if NoTies(a) {
      forall b | multiset(b) == multiset(a) ensures Survivors(b) == Survivors(a) {
        InMultiset(a, b);
        DedupUnique(a, b);
      }
    }
    if forall b :: multiset(b) == multiset(a) ==> Survivors(b) == Survivors(a) {
      forall x, y | Strongest(x, a) && Strongest(y, a) && x.key == y.key ensures x == y {
        var b := SurvivesInFront(a, x);
        var c := SurvivesInFront(a, y);
        assert x in Survivors(a) && y in Survivors(a);
        SurvivorsAre(a, Survivors(a));
        LeaderUnique(a, x, y);
      }
    }
  }

  /** Deduplicating survivors again returns them unchanged, so it suppresses none. */
  lemma DedupIdempotent(signals: seq<RiskSignal>, survivors: seq<RiskSignal>, again: seq<RiskSignal>)
    requires IsDedup(signals, survivors) && IsDedup(survivors, again)
    ensures again == survivors
  {
    SameKeySeq(survivors, again);
    assert |KeySeq(survivors)| == |survivors| == |again|;
    forall i | 0 <= i < |survivors| ensures survivors[i] == again[i] {
      assert again[i] in again;
      var j :| 0 <= j < |survivors| && survivors[j] == again[i];
      assert KeySeq(survivors)[j] == KeySeq(again)[i] == KeySeq(survivors)[i];
    }
  }

  // ----- verdict -----

  function Actionable(s: seq<RiskSignal>): (r: seq<RiskSignal>)
    ensures forall x :: x in r <==> x in s && x.actionable
  {
    if s == [] then []
    else
      var rest := Actionable(s[1..]);
      assert forall x :: x in s <==> x == s[0] || x in s[1..];
      if s[0].actionable then [s[0]] + rest else rest
  }

  function OtherKeys(s: seq<RiskSignal>, k: string): (r: seq<RiskSignal>)
    ensures forall x :: x in r <==> x in s && x.key != k
  {
    if s == [] then []
    else
      var rest := OtherKeys(s[1..], k);
      assert forall x :: x in s <==> x == s[0] || x in s[1..];
      if s[0].key != k then [s[0]] + rest else rest
  }

  function SelectStrongest(s: seq<RiskSignal>): Option<RiskSignal> {
    var sorted := SortBy(s, ByStrength);
    if sorted == [] then None else Some(sorted[0])
  }

  function Clamp(x: real): real {
    if x < 0.0 then 0.0 else if x > 1.0 then 1.0 else x
  }

  function Boost(count: nat): real {
    var b := count as real * SUPPORTING_BOOST_PER_SIGNAL;
    if b < SUPPORTING_BOOST_CAP then b else SUPPORTING_BOOST_CAP
  }

  function AggregateScore(strongest: RiskSignal, supporting: seq<RiskSignal>): real {
    Clamp(strongest.score * (1.0 + Boost(|supporting|)))
  }

  /** Verifications were attempted, yet critical ones are absent or the evidence is unavailable. */
  predicate Uncertain(ev: Availability, noVerifications: bool) {
    !noVerifications && (!ev.criticalPresent || ev.overall == EvidenceState.UNAVAILABLE)
  }

  predicate IsIndeterminate(ev: Availability, noVerifications: bool, strongest: Option<RiskSignal>) {
    if noVerifications && strongest.None? then false
    else if !ev.criticalPresent && strongest.None? then true
    else ev.overall == EvidenceState.UNAVAILABLE && strongest.None?
  }

  function DetermineState(score: real, strongest: Option<RiskSignal>, ev: Availability,
                          noSignals: bool, noVerifications: bool): RiskState {
    if IsIndeterminate(ev, noVerifications, strongest) then INDETERMINATE
    else if noSignals || strongest.None? then CLEAR
    else if SeverityRank(strongest.value.severity) < SeverityRank(Some(MEDIUM)) then CLEAR
    else if score > HIGH_RISK_THRESHOLD then HIGH_RISK
    else if score >= REVIEW_THRESHOLD then REVIEW
    else CLEAR
  }

  /** Appends the code if its condition holds. */
  function Append(codes: seq<ReasonCode>, c: bool, r: ReasonCode): seq<ReasonCode> {
    if c then codes + [r] else codes
  }

  function StrongestCode(strongest: Option<RiskSignal>): ReasonCode {
    STRONGEST_SEVERITY(if strongest.None? || strongest.value.severity.None? then INFO
                       else strongest.value.severity.value)
  }

  function SignalCodes(strongest: Option<RiskSignal>, supporting: nat, suppressed: int,
                       noSignals: bool): seq<ReasonCode> {
    var none := Append([], noSignals, NO_RISK_SIGNALS_PRESENT);
    var severity := Append(none, strongest.Some?, StrongestCode(strongest));
    var support := Append(severity, supporting > 0, INDEPENDENT_SUPPORTING_SIGNALS);
    Append(support, suppressed > 0, CORRELATED_SIGNALS_DEDUPLICATED)
  }

  function WithEvidenceCodes(codes: seq<ReasonCode>, ev: Availability, noVerifications: bool,
                             overrode: bool): seq<ReasonCode> {
    var unknown := Append(codes, ev.overall == EvidenceState.UNAVAILABLE, EVIDENCE_QUALITY_UNKNOWN);
    var degraded := Append(unknown, ev.overall == INSUFFICIENT, EVIDENCE_QUALITY_DEGRADED);
    var nothing := Append(degraded, noVerifications, NO_VERIFICATIONS_PRESENT);
    var critical := Append(nothing, !ev.criticalPresent, CRITICAL_VERIFICATIONS_UNAVAILABLE);
    Append(critical, overrode, INDETERMINATE_OVERRIDES_HIGH_RISK)
  }

  function ReasonCodes(state: RiskState, strongest: Option<RiskSignal>, supporting: nat, suppressed: int,
                       noSignals: bool, ev: Availability, noVerifications: bool, score: real): seq<ReasonCode> {
    WithEvidenceCodes(SignalCodes(strongest, supporting, suppressed, noSignals), ev, noVerifications,
                      state == INDETERMINATE && score >= HIGH_RISK_THRESHOLD)
  }

  /** The assessment of a deduplicated listing. */
  function Assess(survivors: seq<RiskSignal>, suppressed: int, ev: Availability, noVerifications: bool): Assessment {
    var acts := Actionable(survivors);
    var strongest := SelectStrongest(acts);
    var supporting := if strongest.None? then [] else SortBy(OtherKeys(acts, strongest.value.key), ByStrength);
    var score := if strongest.None? then 0.0 else AggregateScore(strongest.value, supporting);
    var state := DetermineState(score, strongest, ev, acts == [], noVerifications);
    Assessment(state, Clamp(score), survivors, strongest, supporting, suppressed,
               ReasonCodes(state, strongest, |supporting|, suppressed, acts == [], ev, noVerifications, score))
  }

  method BuildAssessment(signals: seq<RiskSignal>, ev: Availability, noVerifications: bool) returns (a: Assessment)
    ensures a == Assess(Survivors(signals), |signals| - |Survivors(signals)|, ev, noVerifications)
    ensures a.signals == Survivors(signals) && a.suppressed == |signals| - |a.signals|
    ensures HasStrongest(a) && HasSupporting(a) && HasScore(a)
    ensures HasState(a, ev, noVerifications) && HasReasons(a, ev, noVerifications)
  {
    AssessmentIs(signals, ev, noVerifications);
    hide HasStrongest, HasSupporting, HasScore, HasState, HasReasons, Assess;
    var survivors, suppressed := Deduplicate(signals);
    a := Assess(survivors, suppressed, ev, noVerifications);
  }

  // ----- what an assessment says -----

  /** `a` comes before `b` by score, then severity, then smaller id. */
  ghost predicate Above(a: RiskSignal, b: RiskSignal) {
    || a.score > b.score
    || (a.score == b.score && MoreSevere(a.severity, b.severity))
    || (a.score == b.score && a.severity == b.severity && StrLe(a.signalId, b.signalId))
  }

  /** In decreasing order of severity, unknown texts last. */
  ghost predicate MoreSevere(a: Option<FlagSeverity>, b: Option<FlagSeverity>) {
    match a
    case Some(CRITICAL) => b != Some(CRITICAL)
    case Some(HIGH) => b != Some(CRITICAL) && b != Some(HIGH)
    case Some(MEDIUM) => b == Some(LOW) || b == Some(INFO) || b.None?
    case Some(LOW) => b == Some(INFO) || b.None?
    case Some(INFO) => b.None?
    case None => false
  }

  lemma StrengthIs(a: RiskSignal, b: RiskSignal)
    ensures ByStrength(a, b) <==> Above(a, b)
  {
  }

  /** The strongest signal: an actionable survivor none of the others outranks. */
  ghost predicate HasStrongest(a: Assessment) {
    && (a.strongest.None? <==> forall x :: x in a.signals ==> !x.actionable)
    && (a.strongest.Some? ==>
          && a.strongest.value in a.signals && a.strongest.value.actionable
          && forall x :: x in a.signals && x.actionable ==> Above(a.strongest.value, x))
  }

  /** The supporting signals: the actionable survivors of other keys, each once, in order. */
  ghost predicate HasSupporting(a: Assessment) {
    && (forall i, j :: 0 <= i < j < |a.supporting| ==>
          Above(a.supporting[i], a.supporting[j]) && a.supporting[i] != a.supporting[j])
    && (forall x :: x in a.supporting <==>
          x in a.signals && x.actionable && a.strongest.Some? && x.key != a.strongest.value.key)
  }

  /** The score: that of the strongest signal, raised by 5% for each supporting one up to
      30%, within 0 and 1. */
  ghost predicate HasScore(a: Assessment) {
    if a.strongest.None? then a.score == 0.0
    else
      var n := |a.supporting|;
      var b := if 0.05 * n as real < 0.30 then 0.05 * n as real else 0.30;
      var raised := a.strongest.value.score * (1.0 + b);
      a.score == if raised < 0.0 then 0.0 else if raised > 1.0 then 1.0 else raised
  }

  /** The four states, from the strongest signal and the score. */
  ghost predicate HasState(a: Assessment, ev: Availability, noVerifications: bool) {
    var leads := a.strongest.Some? && a.strongest.value.severity in {Some(MEDIUM), Some(HIGH), Some(CRITICAL)};
    && (a.state == INDETERMINATE <==>
          a.strongest.None? && !noVerifications && (!ev.criticalPresent || ev.overall == EvidenceState.UNAVAILABLE))
    && (a.state == HIGH_RISK <==> leads && a.score > 0.6)
    && (a.state == REVIEW <==> leads && 0.3 <= a.score <= 0.6)
  }

  /** Each reason code is present exactly when its condition holds; all in one order. */
  ghost predicate HasReasons(a: Assessment, ev: Availability, noVerifications: bool) {
    && (NO_RISK_SIGNALS_PRESENT in a.reasons <==> a.strongest.None?)
    && (forall s :: STRONGEST_SEVERITY(s) in a.reasons <==>
          a.strongest.Some? && s == (if a.strongest.value.severity.Some? then a.strongest.value.severity.value
                                     else INFO))
    && (INDEPENDENT_SUPPORTING_SIGNALS in a.reasons <==> a.supporting != [])
    && (CORRELATED_SIGNALS_DEDUPLICATED in a.reasons <==> a.suppressed > 0)
    && (EVIDENCE_QUALITY_UNKNOWN in a.reasons <==> ev.overall == EvidenceState.UNAVAILABLE)
    && (EVIDENCE_QUALITY_DEGRADED in a.reasons <==> ev.overall == INSUFFICIENT)
    && (NO_VERIFICATIONS_PRESENT in a.reasons <==> noVerifications)
    && (CRITICAL_VERIFICATIONS_UNAVAILABLE in a.reasons <==> !ev.criticalPresent)
    && INDETERMINATE_OVERRIDES_HIGH_RISK !in a.reasons
    && (forall i, j :: 0 <= i < j < |a.reasons| ==> Position(a.reasons[i]) < Position(a.reasons[j]))
  }

  ghost function Position(r: ReasonCode): nat {
    match r
    case NO_RISK_SIGNALS_PRESENT => 0
    case STRONGEST_SEVERITY(_) => 1
    case INDEPENDENT_SUPPORTING_SIGNALS => 2
    case CORRELATED_SIGNALS_DEDUPLICATED => 3
    case EVIDENCE_QUALITY_UNKNOWN => 4
    case EVIDENCE_QUALITY_DEGRADED => 5
    case NO_VERIFICATIONS_PRESENT => 6
    case CRITICAL_VERIFICATIONS_UNAVAILABLE => 7
    case INDETERMINATE_OVERRIDES_HIGH_RISK => 8
  }

  lemma AssessmentIs(signals: seq<RiskSignal>, ev: Availability, noVerifications: bool)
    ensures var s := Survivors(signals);
            var a := Assess(s, |signals| - |s|, ev, noVerifications);
            && a.signals == s && a.suppressed == |signals| - |s|
            && HasStrongest(a) && HasSupporting(a) && HasScore(a)
            && HasState(a, ev, noVerifications) && HasReasons(a, ev, noVerifications)
  {
    var s := Survivors(signals);
    hide Survivors, Assess, HasStrongest, HasSupporting, HasScore, HasState, HasReasons, IsDedup;
    SurvivorsAre(signals, s);
    LeadersPart(s, |signals| - |s|, ev, noVerifications);
    SupportingPart(signals, s, |signals| - |s|, ev, noVerifications);
    ScorePart(s, |signals| - |s|, ev, noVerifications);
    ReasonsPart(s, |signals| - |s|, ev, noVerifications);
    AssessedSignals(s, |signals| - |s|, ev, noVerifications);
  }

  lemma AssessedSignals(s: seq<RiskSignal>, n: int, ev: Availability, noVerifications: bool)
    ensures Assess(s, n, ev, noVerifications).signals == s && Assess(s, n, ev, noVerifications).suppressed == n
  {
  }

  lemma LeadersPart(s: seq<RiskSignal>, n: int, ev: Availability, noVerifications: bool)
    ensures HasStrongest(Assess(s, n, ev, noVerifications))
  {
    var acts := Actionable(s);
    StrongestLeads(acts);
    forall a, b ensures ByStrength(a, b) <==> Above(a, b) { StrengthIs(a, b); }
    hide ByStrength, Above, SelectStrongest, ReasonCodes, DetermineState, AggregateScore, SortBy;
    if acts != [] {
      assert acts[0] in acts;
    }
  }

  lemma {:induction false} OtherKeysOnce(s: seq<RiskSignal>, k: string)
    requires StrictlySorted(KeySeq(s))
    ensures forall i, j :: 0 <= i < j < |OtherKeys(Actionable(s), k)| ==>
              OtherKeys(Actionable(s), k)[i] != OtherKeys(Actionable(s), k)[j]
  {
    hide StrLe;
    if s != [] {
      var rest := OtherKeys(Actionable(s[1..]), k);
      KeysOfTail(s);
      OtherKeysOnce(s[1..], k);
      OtherKeysHead(s, k);
      if s[0].actionable && s[0].key != k {
        forall j | 0 <= j < |rest| ensures rest[j] != s[0] {
          assert rest[j] in rest && rest[j] in s[1..];
        }
      }
    }
  }

  lemma OtherKeysHead(s: seq<RiskSignal>, k: string)
    requires s != []
    ensures var rest := OtherKeys(Actionable(s[1..]), k);
            OtherKeys(Actionable(s), k) == if s[0].actionable && s[0].key != k then [s[0]] + rest else rest
  {
    var rest := Actionable(s[1..]);
    assert ([s[0]] + rest)[1..] == rest;
  }

  lemma KeysOfTail(s: seq<RiskSignal>)
    requires s != [] && StrictlySorted(KeySeq(s))
    ensures StrictlySorted(KeySeq(s[1..])) && s[0] !in s[1..]
  {
    hide StrLe;
    var ks, ls := KeySeq(s), KeySeq(s[1..]);
    assert ls == ks[1..];
    forall j | 0 <= j < |s[1..]| ensures s[1..][j] != s[0] {
      assert ks[0] != ks[j + 1];
    }
  }

  lemma SupportingPart(signals: seq<RiskSignal>, s: seq<RiskSignal>, n: int, ev: Availability, noVerifications: bool)
    requires IsDedup(signals, s)
    ensures HasSupporting(Assess(s, n, ev, noVerifications))
  {
    var a := Assess(s, n, ev, noVerifications);
    forall x, y ensures ByStrength(x, y) <==> Above(x, y) { StrengthIs(x, y); }
    if a.strongest.Some? {
      var others := OtherKeys(Actionable(s), a.strongest.value.key);
      OtherKeysOnce(s, a.strongest.value.key);
      SignalOrders();
      SortKeeps(others, ByStrength);
      SortDistinct(others, a.supporting);
    }
    hide ByStrength, Above, SelectStrongest, ReasonCodes, DetermineState, AggregateScore, SortBy, IsDedup,
        TotalPreorder;
  }

  lemma SortDistinct(s: seq<RiskSignal>, t: seq<RiskSignal>)
    requires multiset(t) == multiset(s) && forall i, j :: 0 <= i < j < |s| ==> s[i] != s[j]
    ensures forall x :: x in t <==> x in s
    ensures forall i, j :: 0 <= i < j < |t| ==> t[i] != t[j]
  {
    InMultiset(t, s);
    forall i, j | 0 <= i < j < |t| ensures t[i] != t[j] {
      DistinctCount(s, t[i]);
      var l, m, r := t[..i], t[i + 1..j], t[j + 1..];
      assert t == l + ([t[i]] + (m + ([t[j]] + r)));
      assert multiset(t) == multiset(l) + (multiset{t[i]} + (multiset(m) + (multiset{t[j]} + multiset(r))));
    }
  }

  lemma ScorePart(s: seq<RiskSignal>, n: int, ev: Availability, noVerifications: bool)
    ensures HasScore(Assess(s, n, ev, noVerifications))
            && HasState(Assess(s, n, ev, noVerifications), ev, noVerifications)
  {
    var a := Assess(s, n, ev, noVerifications);
    StrongestLeads(Actionable(s));
    if a.strongest.Some? {
      AggregateIs(a.strongest.value, a.supporting);
    }
    hide ByStrength, SelectStrongest, ReasonCodes, SortBy, Actionable, OtherKeys, LeadsAll, AggregateScore,
        DetermineState;
    StateIs(a.score, a.strongest, ev, noVerifications);
  }

  lemma StateIs(score: real, strongest: Option<RiskSignal>, ev: Availability, noVerifications: bool)
    ensures var state := DetermineState(score, strongest, ev, strongest.None?, noVerifications);
            var leads := strongest.Some? && strongest.value.severity in {Some(MEDIUM), Some(HIGH), Some(CRITICAL)};
            && (state == INDETERMINATE <==>
                  && strongest.None? && !noVerifications
                  && (!ev.criticalPresent || ev.overall == EvidenceState.UNAVAILABLE))
            && (state == HIGH_RISK <==> leads && score > 0.6)
            && (state == REVIEW <==> leads && 0.3 <= score <= 0.6)
  {
  }

  lemma AggregateIs(s: RiskSignal, supporting: seq<RiskSignal>)
    ensures var b := if 0.05 * |supporting| as real < 0.30 then 0.05 * |supporting| as real else 0.30;
            var raised := s.score * (1.0 + b);
            AggregateScore(s, supporting) == if raised < 0.0 then 0.0 else if raised > 1.0 then 1.0 else raised
  {
    var b := if 0.05 * |supporting| as real < 0.30 then 0.05 * |supporting| as real else 0.30;
    SameProduct(s.score, 1.0 + b, 1.0 + Boost(|supporting|));
    hide Boost;
  }

  lemma SameProduct(x: real, a: real, b: real)
    requires a == b
    ensures x * a == x * b
  {
  }

  /** Reasons with increasing positions from `low` on and below `high`. */
  ghost predicate Placed(s: seq<ReasonCode>, low: nat, high: nat) {
    && (forall i :: 0 <= i < |s| ==> low <= Position(s[i]) < high)
    && (forall i, j :: 0 <= i < j < |s| ==> Position(s[i]) < Position(s[j]))
  }

  ghost predicate Has(codes: seq<ReasonCode>, x: ReasonCode) {
    x in codes
  }

  lemma Appended(codes: seq<ReasonCode>, c: bool, r: ReasonCode, k: nat, x: ReasonCode)
    requires Placed(codes, 0, k) && Position(r) == k
    ensures Placed(Append(codes, c, r), 0, k + 1)
    ensures Has(Append(codes, c, r), x) <==> Has(codes, x) || (c && x == r)
  {
    hide Position;
  }

  lemma SignalCodesAre(strongest: Option<RiskSignal>, supporting: nat, suppressed: int, r: ReasonCode)
    ensures var codes := SignalCodes(strongest, supporting, suppressed, strongest.None?);
            && Placed(codes, 0, 4)
            && (Has(codes, r) <==>
                  || (r == NO_RISK_SIGNALS_PRESENT && strongest.None?)
                  || (r == StrongestCode(strongest) && strongest.Some?)
                  || (r == INDEPENDENT_SUPPORTING_SIGNALS && supporting > 0)
                  || (r == CORRELATED_SIGNALS_DEDUPLICATED && suppressed > 0))
  {
    hide Placed, Has, Append;
    var first := Append([], strongest.None?, NO_RISK_SIGNALS_PRESENT);
    FirstCode(r, strongest.None?);
    NextThree(first, strongest.Some?, StrongestCode(strongest), supporting > 0, suppressed > 0, r);
  }

  lemma FirstCode(r: ReasonCode, c: bool)
    ensures var first := Append([], c, NO_RISK_SIGNALS_PRESENT);
            Placed(first, 0, 1) && (Has(first, r) <==> c && r == NO_RISK_SIGNALS_PRESENT)
  {
  }

  lemma NextThree(codes: seq<ReasonCode>, c: bool, severity: ReasonCode, supported: bool, shared: bool, r: ReasonCode)
    requires Placed(codes, 0, 1) && Position(severity) == 1
    ensures var with := Append(codes, c, severity);
            var support := Append(with, supported, INDEPENDENT_SUPPORTING_SIGNALS);
            var all := Append(support, shared, CORRELATED_SIGNALS_DEDUPLICATED);
            && Placed(all, 0, 4)
            && (Has(all, r) <==>
                  || Has(codes, r)
                  || (c && r == severity)
                  || (supported && r == INDEPENDENT_SUPPORTING_SIGNALS)
                  || (shared && r == CORRELATED_SIGNALS_DEDUPLICATED))
  {
    var with := Append(codes, c, severity);
    var support := Append(with, supported, INDEPENDENT_SUPPORTING_SIGNALS);
    hide Placed, Append, Has;
    Appended(codes, c, severity, 1, r);
    Appended(with, supported, INDEPENDENT_SUPPORTING_SIGNALS, 2, r);
    Appended(support, shared, CORRELATED_SIGNALS_DEDUPLICATED, 3, r);
  }

  lemma EvidenceCodesAre(codes: seq<ReasonCode>, ev: Availability, noVerifications: bool, overrode: bool, r: ReasonCode)
    requires Placed(codes, 0, 4)
    ensures var all := WithEvidenceCodes(codes, ev, noVerifications, overrode);
            && Placed(all, 0, 9)
            && (Has(all, r) <==>
                  || Has(codes, r)
                  || (r == EVIDENCE_QUALITY_UNKNOWN && ev.overall == EvidenceState.UNAVAILABLE)
                  || (r == EVIDENCE_QUALITY_DEGRADED && ev.overall == INSUFFICIENT)
                  || (r == NO_VERIFICATIONS_PRESENT && noVerifications)
                  || (r == CRITICAL_VERIFICATIONS_UNAVAILABLE && !ev.criticalPresent)
                  || (r == INDETERMINATE_OVERRIDES_HIGH_RISK && overrode))
  {
    var unknown := Append(codes, ev.overall == EvidenceState.UNAVAILABLE, EVIDENCE_QUALITY_UNKNOWN);
    var degraded := Append(unknown, ev.overall == INSUFFICIENT, EVIDENCE_QUALITY_DEGRADED);
    var nothing := Append(degraded, noVerifications, NO_VERIFICATIONS_PRESENT);
    var critical := Append(nothing, !ev.criticalPresent, CRITICAL_VERIFICATIONS_UNAVAILABLE);
    hide Placed, Append, Has;
    Appended(codes, ev.overall == EvidenceState.UNAVAILABLE, EVIDENCE_QUALITY_UNKNOWN, 4, r);
    Appended(unknown, ev.overall == INSUFFICIENT, EVIDENCE_QUALITY_DEGRADED, 5, r);
    Appended(degraded, noVerifications, NO_VERIFICATIONS_PRESENT, 6, r);
    Appended(nothing, !ev.criticalPresent, CRITICAL_VERIFICATIONS_UNAVAILABLE, 7, r);
    Appended(critical, overrode, INDETERMINATE_OVERRIDES_HIGH_RISK, 8, r);
  }

  lemma ReasonCodesAre(state: RiskState, strongest: Option<RiskSignal>, supporting: nat, suppressed: int,
                       ev: Availability, noVerifications: bool, score: real, r: ReasonCode)
    ensures var reasons := ReasonCodes(state, strongest, supporting, suppressed, strongest.None?, ev, noVerifications,
                                       score);
            && Placed(reasons, 0, 9)
            && (Has(reasons, r) <==>
                  || (r == NO_RISK_SIGNALS_PRESENT && strongest.None?)
                  || (r.STRONGEST_SEVERITY? && strongest.Some?
                      && r.severity == (if strongest.value.severity.Some? then strongest.value.severity.value
                                        else INFO))
                  || (r == INDEPENDENT_SUPPORTING_SIGNALS && supporting > 0)
                  || (r == CORRELATED_SIGNALS_DEDUPLICATED && suppressed > 0)
                  || (r == EVIDENCE_QUALITY_UNKNOWN && ev.overall == EvidenceState.UNAVAILABLE)
                  || (r == EVIDENCE_QUALITY_DEGRADED && ev.overall == INSUFFICIENT)
                  || (r == NO_VERIFICATIONS_PRESENT && noVerifications)
                  || (r == CRITICAL_VERIFICATIONS_UNAVAILABLE && !ev.criticalPresent)
                  || (r == INDETERMINATE_OVERRIDES_HIGH_RISK && state == INDETERMINATE && score >= 0.6))
  {
    hide Placed, Has, SignalCodes, WithEvidenceCodes;
    SignalCodesAre(strongest, supporting, suppressed, r);
    EvidenceCodesAre(SignalCodes(strongest, supporting, suppressed, strongest.None?), ev, noVerifications,
                     state == INDETERMINATE && score >= HIGH_RISK_THRESHOLD, r);
  }

  lemma ReasonsPart(s: seq<RiskSignal>, n: int, ev: Availability, noVerifications: bool)
    ensures HasReasons(Assess(s, n, ev, noVerifications), ev, noVerifications)
  {
    var a := Assess(s, n, ev, noVerifications);
    StrongestLeads(Actionable(s));
    NeverOverridesHighRisk(s, n, ev, noVerifications);
    var score := if a.strongest.None? then 0.0 else AggregateScore(a.strongest.value, a.supporting);
    hide ByStrength, SelectStrongest, SortBy, Actionable, OtherKeys, LeadsAll, AggregateScore, DetermineState;
    assert a.reasons ==
           ReasonCodes(a.state, a.strongest, |a.supporting|, n, a.strongest.None?, ev, noVerifications, score);
    AssessedSignals(s, n, ev, noVerifications);
    hide Assess, ReasonCodes;
    ReasonsFrom(a, ev, noVerifications, score);
  }

  lemma ReasonsFrom(a: Assessment, ev: Availability, noVerifications: bool, score: real)
    requires INDETERMINATE_OVERRIDES_HIGH_RISK !in a.reasons
    requires a.reasons ==
             ReasonCodes(a.state, a.strongest, |a.supporting|, a.suppressed, a.strongest.None?, ev, noVerifications,
                         score)
    ensures HasReasons(a, ev, noVerifications)
  {
    hide ReasonCodes;
    forall r ensures r in a.reasons <==>
                     || (r == NO_RISK_SIGNALS_PRESENT && a.strongest.None?)
                     || (r.STRONGEST_SEVERITY? && a.strongest.Some?
                         && r.severity == (if a.strongest.value.severity.Some? then a.strongest.value.severity.value
                                           else INFO))
                     || (r == INDEPENDENT_SUPPORTING_SIGNALS && a.supporting != [])
                     || (r == CORRELATED_SIGNALS_DEDUPLICATED && a.suppressed > 0)
                     || (r == EVIDENCE_QUALITY_UNKNOWN && ev.overall == EvidenceState.UNAVAILABLE)
                     || (r == EVIDENCE_QUALITY_DEGRADED && ev.overall == INSUFFICIENT)
                     || (r == NO_VERIFICATIONS_PRESENT && noVerifications)
                     || (r == CRITICAL_VERIFICATIONS_UNAVAILABLE && !ev.criticalPresent)
                     || (r == INDETERMINATE_OVERRIDES_HIGH_RISK && a.state == INDETERMINATE && score >= 0.6) {
      ReasonCodesAre(a.state, a.strongest, |a.supporting|, a.suppressed, ev, noVerifications, score, r);
    }
    ReasonCodesAre(a.state, a.strongest, |a.supporting|, a.suppressed, ev, noVerifications, score,
                   NO_RISK_SIGNALS_PRESENT);
  }

  /** What every signal constructor guarantees. */
  predicate WellFormed(s: RiskSignal) {
    s.severity.Some? && s.score == SeverityWeight(s.severity)
  }

  predicate AtLeast(s: RiskSignal, severity: FlagSeverity) {
    s.actionable && SeverityRank(s.severity) >= SeverityRank(Some(severity))
  }

  ghost predicate ShowsHighRisk(survivors: seq<RiskSignal>) {
    || (exists a :: a in survivors && AtLeast(a, HIGH))
    || (exists a, b :: a in survivors && b in survivors && AtLeast(a, MEDIUM) && b.actionable && a.key != b.key)
  }

  ghost predicate ShowsReview(survivors: seq<RiskSignal>) {
    exists a :: a in survivors && AtLeast(a, MEDIUM)
  }

  lemma StrongestLeads(acts: seq<RiskSignal>)
    ensures SelectStrongest(acts) == None <==> acts == []
    ensures acts != [] ==>
              var s := SelectStrongest(acts).value;
              LeadsAll(s, acts)
  {
    SortKeeps(acts, ByStrength);
    if acts != [] {
      HeadIsBest(acts);
    }
  }

  lemma StrengthIsSeverity(a: RiskSignal, b: RiskSignal)
    requires WellFormed(a) && WellFormed(b) && ByStrength(a, b)
    ensures SeverityRank(a.severity) >= SeverityRank(b.severity)
  {
  }

  /** A MEDIUM leader is HIGH_RISK as soon as one independent signal supports it,
      and REVIEW alone; HIGH and CRITICAL leaders are always HIGH_RISK. */
  lemma LeaderDecides(s: RiskSignal, supporting: seq<RiskSignal>, ev: Availability, noVerifications: bool)
    requires WellFormed(s)
    ensures DetermineState(AggregateScore(s, supporting), Some(s), ev, false, noVerifications) ==
            if SeverityRank(s.severity) >= 3 || (SeverityRank(s.severity) == 2 && supporting != []) then HIGH_RISK
            else if SeverityRank(s.severity) == 2 then REVIEW
            else CLEAR
  {
    var n := |supporting|;
    assert n > 0 ==> Boost(n) >= 0.05;
    assert Boost(n) >= 0.0;
    var score := s.score * (1.0 + Boost(n));
    assert s.score >= 0.9 ==> score >= 0.9;
    assert s.score == 0.6 && n > 0 ==> score >= 0.63;
  }

  lemma LeaderShows(survivors: seq<RiskSignal>, s: RiskSignal)
    requires forall x :: x in survivors ==> WellFormed(x)
    requires LeadsAll(s, Actionable(survivors))
    ensures ShowsHighRisk(survivors) <==>
            SeverityRank(s.severity) >= 3
            || (SeverityRank(s.severity) == 2 && OtherKeys(Actionable(survivors), s.key) != [])
    ensures ShowsReview(survivors) <==> SeverityRank(s.severity) >= 2
  {
    var acts := Actionable(survivors);
    var others := OtherKeys(acts, s.key);
    forall x | x in survivors && x.actionable ensures SeverityRank(x.severity) <= SeverityRank(s.severity) {
      assert x in acts;
      StrengthIsSeverity(s, x);
    }
    if others != [] {
      assert others[0] in others;
    }
    if a, b :| a in survivors && b in survivors && AtLeast(a, MEDIUM) && b.actionable && a.key != b.key {
      assert a in acts && b in acts;
      assert a in others || b in others;
    }
  }

  ghost predicate LeadsAll(s: RiskSignal, acts: seq<RiskSignal>) {
    s in acts && forall x :: x in acts ==> ByStrength(s, x)
  }

  /** The verdict, characterised by the actionable survivors alone. */
  lemma VerdictCharacterised(survivors: seq<RiskSignal>, suppressed: int, ev: Availability, noVerifications: bool)
    requires forall s :: s in survivors ==> WellFormed(s)
    ensures Assess(survivors, suppressed, ev, noVerifications).state ==
            if Actionable(survivors) == [] then
              (if Uncertain(ev, noVerifications) then INDETERMINATE else CLEAR)
            else if ShowsHighRisk(survivors) then HIGH_RISK
            else if ShowsReview(survivors) then REVIEW
            else CLEAR
  {
    var acts := Actionable(survivors);
    StrongestLeads(acts);
    if acts != [] {
      var s := SelectStrongest(acts).value;
      var others := OtherKeys(acts, s.key);
      SortKeeps(others, ByStrength);
      LeaderDecides(s, SortBy(others, ByStrength), ev, noVerifications);
      LeaderShows(survivors, s);
    }
  }

  /** INDETERMINATE means no actionable signal, hence score 0: it never overrides a high risk. */
  lemma NeverOverridesHighRisk(survivors: seq<RiskSignal>, suppressed: int, ev: Availability, noVerifications: bool)
    ensures INDETERMINATE_OVERRIDES_HIGH_RISK !in Assess(survivors, suppressed, ev, noVerifications).reasons
  {
    var acts := Actionable(survivors);
    StrongestLeads(acts);
    hide SelectStrongest, SortBy, ByStrength, AggregateScore, Actionable, OtherKeys;
  }

  /** No number of LOW and INFO signals reaches REVIEW or HIGH_RISK. */
  lemma WeakSignalsStayClear(signals: seq<RiskSignal>, survivors: seq<RiskSignal>, suppressed: int, ev: Availability,
                             noVerifications: bool)
    requires IsDedup(signals, survivors)
    requires forall s :: s in signals ==> WellFormed(s) && SeverityRank(s.severity) <= 1
    ensures Assess(survivors, suppressed, ev, noVerifications).state ==
            if Actionable(survivors) == [] && Uncertain(ev, noVerifications) then INDETERMINATE else CLEAR
  {
    hide Assess, ByStrength, IsDedup, WellFormed, Leads;
    SurvivorsWellFormed(signals, survivors);
    forall s | s in survivors ensures SeverityRank(s.severity) <= 1 {
      SurvivorIsGiven(signals, survivors, s);
    }
    VerdictCharacterised(survivors, suppressed, ev, noVerifications);
  }

  lemma SurvivorIsGiven(signals: seq<RiskSignal>, survivors: seq<RiskSignal>, s: RiskSignal)
    requires IsDedup(signals, survivors) && s in survivors
    ensures s in signals
  {
    hide ByStrength;
    LeadsMember(s, signals);
  }

  function StateRank(s: RiskState): int {
    match s
    case INDETERMINATE => -1
    case CLEAR => 0
    case REVIEW => 1
    case HIGH_RISK => 2
  }

  /** Whether `x`, given after the signals `p`, takes the place of the survivor `s` of
      its key: it must be strictly stronger than one given before it. */
  predicate Displaces(p: seq<RiskSignal>, s: RiskSignal, x: RiskSignal) {
    if s in p then !ByStrength(s, x) else ByStrength(x, s)
  }

  /** No actionable survivor loses its place to a non-actionable `x`. */
  ghost predicate HidesNothing(survivors: seq<RiskSignal>, p: seq<RiskSignal>, x: RiskSignal) {
    x.actionable || forall s :: s in survivors && s.key == x.key && s.actionable ==> !Displaces(p, s, x)
  }

  lemma LeadsMember(r: RiskSignal, signals: seq<RiskSignal>)
    requires Leads(r, signals)
    ensures r in signals && r.key in Keys(signals)
  {
  }

  /** Who leads after inserting `x` led before and was not displaced, or is `x` and
      displaces all of its key. */
  lemma LeadsInserted(r: RiskSignal, p: seq<RiskSignal>, x: RiskSignal, q: seq<RiskSignal>)
    requires Leads(r, p + [x] + q)
    ensures (Leads(r, p + q) && (r.key == x.key ==> !Displaces(p, r, x)))
            || (r == x && forall s :: s in p + q && s.key == x.key ==> Displaces(p, s, x) && ByStrength(x, s))
  {
    var i: nat :| LeadsAt(r, p + [x] + q, i);
    hide LeadsAt, Displaces;
    if i == |p| {
      InsertedLeads(r, p, x, q);
    } else {
      OtherLeads(r, p, x, q, i);
    }
  }

  lemma InsertedLeads(r: RiskSignal, p: seq<RiskSignal>, x: RiskSignal, q: seq<RiskSignal>)
    requires LeadsAt(r, p + [x] + q, |p|)
    ensures r == x && forall s :: s in p + q && s.key == x.key ==> Displaces(p, s, x) && ByStrength(x, s)
  {
    hide ByStrength;
    var s := p + [x] + q;
    assert s[|p|] == x;
    assert forall j :: 0 <= j < |p| ==> p[j] == s[j];
    forall z | z in p + q && z.key == x.key ensures ByStrength(x, z) && (z in p ==> !ByStrength(z, x)) {
      assert z in s;
    }
  }

  lemma OtherLeads(r: RiskSignal, p: seq<RiskSignal>, x: RiskSignal, q: seq<RiskSignal>, i: nat)
    requires LeadsAt(r, p + [x] + q, i) && i != |p|
    ensures Leads(r, p + q) && (r.key == x.key ==> !Displaces(p, r, x))
  {
    var s, t := p + [x] + q, p + q;
    assert s[|p|] == x;
    assert forall j :: 0 <= j < |t| ==> t[j] == s[if j < |p| then j else j + 1];
    StrengthReflexive(r);
    LeadsWithout(r, s, t, |p|, i);
    hide ByStrength, LeadsAt;
    if r in p { InFront(r, p, x, q, i); }
  }

  lemma LeadsWithout(r: RiskSignal, s: seq<RiskSignal>, t: seq<RiskSignal>, k: nat, i: nat)
    requires |s| == |t| + 1 && k <= |t| && i != k && LeadsAt(r, s, i)
    requires forall j :: 0 <= j < |t| ==> t[j] == s[if j < k then j else j + 1]
    ensures LeadsAt(r, t, if i < k then i else i - 1)
    ensures s[k].key == r.key ==> ByStrength(r, s[k]) && (k < i ==> !ByStrength(s[k], r))
  {
    hide ByStrength;
  }

  lemma InFront(r: RiskSignal, p: seq<RiskSignal>, x: RiskSignal, q: seq<RiskSignal>, i: nat)
    requires r in p && LeadsAt(r, p + [x] + q, i)
    ensures i < |p|
  {
    StrengthReflexive(r);
    hide ByStrength;
    var j :| 0 <= j < |p| && p[j] == r;
    assert (p + [x] + q)[j] == r;
  }

  lemma SurvivorPersists(p: seq<RiskSignal>, x: RiskSignal, q: seq<RiskSignal>, before: seq<RiskSignal>,
                         after: seq<RiskSignal>,
                         a: RiskSignal) returns (b: RiskSignal)
    requires HidesNothing(before, p, x)
    requires IsDedup(p + q, before) && IsDedup(p + [x] + q, after)
    requires forall s :: s in p + [x] + q ==> WellFormed(s)
    requires a in before && a.actionable
    ensures b in after && b.key == a.key && b.actionable
    ensures SeverityRank(b.severity) >= SeverityRank(a.severity)
  {
    hide ByStrength, LeadsAt;
    LeadsMember(a, p + q);
    assert a.key in Keys(p + [x] + q);
    b :| b in after && b.key == a.key;
    LeadsInserted(b, p, x, q);
    if Leads(b, p + q) && (b.key == x.key ==> !Displaces(p, b, x)) {
      LeaderUnique(p + q, a, b);
    } else {
      assert a in p + [x] + q && x in p + [x] + q;
      StrengthIsSeverity(x, a);
    }
  }

  lemma ShowsPersist(p: seq<RiskSignal>, x: RiskSignal, q: seq<RiskSignal>, before: seq<RiskSignal>,
                     after: seq<RiskSignal>)
    requires HidesNothing(before, p, x)
    requires IsDedup(p + q, before) && IsDedup(p + [x] + q, after)
    requires forall s :: s in p + [x] + q ==> WellFormed(s)
    ensures ShowsReview(before) ==> ShowsReview(after)
    ensures ShowsHighRisk(before) ==> ShowsHighRisk(after)
    ensures Actionable(before) != [] ==> Actionable(after) != []
  {
    hide ByStrength, IsDedup, HidesNothing, WellFormed;
    if a :| a in before && AtLeast(a, HIGH) {
      var a' := SurvivorPersists(p, x, q, before, after, a);
      assert AtLeast(a', HIGH);
    }
    if a, b :| a in before && b in before && AtLeast(a, MEDIUM) && b.actionable && a.key != b.key {
      var a' := SurvivorPersists(p, x, q, before, after, a);
      var b' := SurvivorPersists(p, x, q, before, after, b);
      assert AtLeast(a', MEDIUM);
    }
    if a :| a in before && AtLeast(a, MEDIUM) {
      var a' := SurvivorPersists(p, x, q, before, after, a);
      assert AtLeast(a', MEDIUM);
    }
    if Actionable(before) != [] {
      var a' := SurvivorPersists(p, x, q, before, after, Actionable(before)[0]);
      assert a' in Actionable(after);
    }
  }

  lemma SurvivorsWellFormed(signals: seq<RiskSignal>, survivors: seq<RiskSignal>)
    requires IsDedup(signals, survivors) && forall s :: s in signals ==> WellFormed(s)
    ensures forall s :: s in survivors ==> WellFormed(s)
  {
    hide WellFormed, ByStrength;
    forall s | s in survivors ensures WellFormed(s) {
      LeadsMember(s, signals);
    }
  }

  lemma OtherKeysUnchanged(p: seq<RiskSignal>, x: RiskSignal, q: seq<RiskSignal>, before: seq<RiskSignal>,
                           after: seq<RiskSignal>,
                           y: RiskSignal)
    requires IsDedup(p + q, before) && IsDedup(p + [x] + q, after)
    requires y.key != x.key
    ensures y in before <==> y in after
  {
    hide ByStrength, LeadsAt;
    if y in before {
      LeadsMember(y, p + q);
      assert y.key in Keys(p + [x] + q);
      var z :| z in after && z.key == y.key;
      LeadsInserted(z, p, x, q);
      LeaderUnique(p + q, y, z);
    }
    if y in after {
      LeadsInserted(y, p, x, q);
      LeadsMember(y, p + q);
      var z :| z in before && z.key == y.key;
      LeaderUnique(p + q, y, z);
    }
  }

  /** What hides an actionable survivor takes its place. */
  lemma HiderSurvives(p: seq<RiskSignal>, x: RiskSignal, q: seq<RiskSignal>, before: seq<RiskSignal>,
                      after: seq<RiskSignal>,
                      y: RiskSignal)
    requires IsDedup(p + q, before) && IsDedup(p + [x] + q, after)
    requires !HidesNothing(before, p, x) && y in after && y.key == x.key
    ensures y == x && !y.actionable
  {
    hide ByStrength, LeadsAt, Displaces;
    var a :| a in before && a.key == x.key && a.actionable && Displaces(p, a, x);
    LeadsInserted(y, p, x, q);
    if Leads(y, p + q) {
      LeaderUnique(p + q, y, a);
    }
  }

  lemma SameActionables(s: seq<RiskSignal>, t: seq<RiskSignal>, n: int, m: int, ev: Availability, noVerifications: bool)
    requires forall x :: x in s || x in t ==> WellFormed(x)
    requires forall x: RiskSignal :: x.actionable ==> (x in s <==> x in t)
    ensures Assess(s, n, ev, noVerifications).state == Assess(t, m, ev, noVerifications).state
  {
    VerdictCharacterised(s, n, ev, noVerifications);
    VerdictCharacterised(t, m, ev, noVerifications);
    hide Assess, WellFormed;
    ActionablesShow(s, t);
    ActionablesShow(t, s);
  }

  lemma ActionablesShow(s: seq<RiskSignal>, t: seq<RiskSignal>)
    requires forall x: RiskSignal :: x.actionable ==> (x in s <==> x in t)
    ensures ShowsHighRisk(s) ==> ShowsHighRisk(t)
    ensures ShowsReview(s) ==> ShowsReview(t)
    ensures Actionable(s) != [] ==> Actionable(t) != []
  {
    if Actionable(s) != [] {
      assert Actionable(s)[0] in Actionable(t);
    }
  }

  /** Adding a signal anywhere, if it hides nothing, never lowers the verdict; one that
      hides an actionable survivor leaves the verdict of the survivors of other keys. */
  lemma AddSignal(p: seq<RiskSignal>, x: RiskSignal, q: seq<RiskSignal>, before: seq<RiskSignal>,
                  after: seq<RiskSignal>,
                  n: int, m: int, ev: Availability, noVerifications: bool)
    requires IsDedup(p + q, before) && IsDedup(p + [x] + q, after)
    requires forall s :: s in p + [x] + q ==> WellFormed(s)
    ensures HidesNothing(before, p, x) ==>
              StateRank(Assess(before, n, ev, noVerifications).state) <=
                  StateRank(Assess(after, m, ev, noVerifications).state)
    ensures !HidesNothing(before, p, x) ==>
              Assess(after, m, ev, noVerifications).state ==
                  Assess(OtherKeys(before, x.key), n, ev, noVerifications).state
  {
    forall s | s in p + q ensures WellFormed(s) { assert s in p + [x] + q; }
    hide Assess, WellFormed, ByStrength, IsDedup;
    SurvivorsWellFormed(p + q, before);
    SurvivorsWellFormed(p + [x] + q, after);
    if HidesNothing(before, p, x) {
      VerdictCharacterised(before, n, ev, noVerifications);
      VerdictCharacterised(after, m, ev, noVerifications);
      ShowsPersist(p, x, q, before, after);
    } else {
      var others := OtherKeys(before, x.key);
      forall y: RiskSignal | y.actionable ensures y in after <==> y in others {
        if y.key != x.key { OtherKeysUnchanged(p, x, q, before, after, y); }
        else if y in after { HiderSurvives(p, x, q, before, after, y); }
      }
      SameActionables(after, others, m, n, ev, noVerifications);
    }
  }

  lemma OtherKeysShowLess(survivors: seq<RiskSignal>, k: string)
    ensures ShowsHighRisk(OtherKeys(survivors, k)) ==> ShowsHighRisk(survivors)
    ensures ShowsReview(OtherKeys(survivors, k)) ==> ShowsReview(survivors)
    ensures ShowsHighRisk(survivors) ==> ShowsReview(survivors)
    ensures ShowsReview(survivors) ==> Actionable(survivors) != []
  {
    hide OtherKeys;
    if ShowsReview(survivors) {
      var a :| a in survivors && AtLeast(a, MEDIUM);
      assert a in Actionable(survivors);
    }
  }

  /** Adding a signal lowers the verdict exactly when it hides an actionable survivor
      and, without that survivor's key, the others show no high risk where all did, or
      no review where all did, or none of them is actionable while the evidence leaves
      the bidder uncertain. */
  lemma LowersVerdictIff(p: seq<RiskSignal>, x: RiskSignal, q: seq<RiskSignal>, before: seq<RiskSignal>,
                         after: seq<RiskSignal>,
                         n: int, m: int, ev: Availability, noVerifications: bool)
    requires IsDedup(p + q, before) && IsDedup(p + [x] + q, after)
    requires forall s :: s in p + [x] + q ==> WellFormed(s)
    ensures StateRank(Assess(after, m, ev, noVerifications).state) <
            StateRank(Assess(before, n, ev, noVerifications).state)
            <==>
            var others := OtherKeys(before, x.key);
            && !HidesNothing(before, p, x)
            && (|| (ShowsHighRisk(before) && !ShowsHighRisk(others))
                || (ShowsReview(before) && !ShowsReview(others))
                || (Actionable(others) == [] && Uncertain(ev, noVerifications)))
  {
    hide Assess, WellFormed, IsDedup, ShowsHighRisk, ShowsReview, OtherKeys, StateRank;
    AddSignal(p, x, q, before, after, n, m, ev, noVerifications);
    if !HidesNothing(before, p, x) {
      WellFormedSurvivors(p, x, q, before);
      LosingAKey(before, x, p, n, ev, noVerifications);
    }
  }

  lemma WellFormedSurvivors(p: seq<RiskSignal>, x: RiskSignal, q: seq<RiskSignal>, before: seq<RiskSignal>)
    requires IsDedup(p + q, before) && forall s :: s in p + [x] + q ==> WellFormed(s)
    ensures forall s :: s in before ==> WellFormed(s)
  {
    hide WellFormed, IsDedup;
    forall s | s in p + q ensures WellFormed(s) { assert s in p + [x] + q; }
    SurvivorsWellFormed(p + q, before);
  }

  lemma LosingAKey(before: seq<RiskSignal>, x: RiskSignal, p: seq<RiskSignal>, n: int, ev: Availability,
                   noVerifications: bool)
    requires forall s :: s in before ==> WellFormed(s)
    requires !HidesNothing(before, p, x)
    ensures var others := OtherKeys(before, x.key);
            StateRank(Assess(others, n, ev, noVerifications).state) <
            StateRank(Assess(before, n, ev, noVerifications).state)
            <==> (|| (ShowsHighRisk(before) && !ShowsHighRisk(others))
                  || (ShowsReview(before) && !ShowsReview(others))
                  || (Actionable(others) == [] && Uncertain(ev, noVerifications)))
  {
    hide Assess, WellFormed, ShowsHighRisk, ShowsReview, OtherKeys, Displaces;
    var others := OtherKeys(before, x.key);
    var a :| a in before && a.key == x.key && a.actionable && Displaces(p, a, x);
    assert a in Actionable(before);
    VerdictCharacterised(before, n, ev, noVerifications);
    VerdictCharacterised(others, n, ev, noVerifications);
    OtherKeysShowLess(before, x.key);
    OtherKeysShowLess(others, x.key);
  }

  /** The verdict does drop for signals the constructors below give: a finding and a
      missing compliance item with the same flag and key tie, and the item's id comes
      first. */
  lemma HiddenSignalLowersVerdict()
    ensures var registry := map["flag" := HIGH];
            var f := SignalFromFinding("finding:f", "k", "flag", registry);
            var c := SignalFromCompliance("compliance:b:r", "k", MISSING, ["flag"], registry);
            var ev := Availability(true, EvidenceState.VERIFIED);
            && f.Emitted? && c.Emitted?
            && Survivors([f.signal]) == [f.signal] && Survivors([f.signal, c.signal]) == [c.signal]
            && Assess([f.signal], 0, ev, false).state == HIGH_RISK
            && Assess([c.signal], 1, ev, false).state == CLEAR
  {
    var f := RiskSignal("finding:f", "k", Some(HIGH), 0.9, true);
    var c := RiskSignal("compliance:b:r", "k", Some(HIGH), 0.9, false);
    var ev := Availability(true, EvidenceState.VERIFIED);
    assert ByStrength(c, f) && !ByStrength(f, c);
    hide Survivors, ByStrength, Assess, StrLe;
    LaterWins(f, c);
    LoneVerdict(f, 0, ev);
    LoneVerdict(c, 1, ev);
  }

  /** A single signal of severity HIGH decides by being actionable. */
  lemma LoneVerdict(s: RiskSignal, suppressed: int, ev: Availability)
    requires WellFormed(s) && s.severity == Some(HIGH) && !Uncertain(ev, false)
    ensures Assess([s], suppressed, ev, false).state == if s.actionable then HIGH_RISK else CLEAR
  {
    hide Assess;
    assert s in [s];
    VerdictCharacterised([s], suppressed, ev, false);
  }

  lemma LaterWins(f: RiskSignal, c: RiskSignal)
    requires f.key == c.key && ByStrength(c, f) && !ByStrength(f, c)
    ensures Survivors([f]) == [f] && Survivors([f, c]) == [c]
  {
    hide ByStrength, Survivors;
    StrengthReflexive(f);
    StrengthReflexive(c);
    assert LeadsAt(f, [f], 0) && LeadsAt(c, [f, c], 1);
    assert Keys([c]) == {c.key} == Keys([f, c]) by { assert f in [f, c] && c in [f, c] && c in [c]; }
    hide LeadsAt, Keys;
    SurvivorsAre([f], [f]);
    SurvivorsAre([f, c], [c]);
  }

  // ----- signal constructors -----

  /** What a constructor gives: a signal, none, or an exception. */
  datatype Construction = Emitted(signal: RiskSignal) | NoSignal | Raised

  /** Severity of a compliance result: its first flag's, if registered, else by status. */
  function ComplianceSeverity(status: ComplianceStatus, flags: seq<string>, registry: map<string, FlagSeverity>)
    : FlagSeverity
  {
    if flags != [] && flags[0] in registry then registry[flags[0]]
    else match status
      case FAIL => HIGH
      case WARNING => MEDIUM
      case MISSING => MEDIUM
      case _ => INFO
  }

  function SignalFromCompliance(id: string, key: string, status: ComplianceStatus, flags: seq<string>,
                                registry: map<string, FlagSeverity>): Construction {
    if status !in {FAIL, WARNING, MISSING} then NoSignal
    else
      var severity := Some(ComplianceSeverity(status, flags, registry));
      Emitted(RiskSignal(id, key, severity, SeverityWeight(severity), status in {FAIL, WARNING}))
  }

  /** Verification and cross-bidder findings: actionable, with the flag's severity; an
      unregistered flag yields no signal. */
  function SignalFromFinding(id: string, key: string, flagId: string, registry: map<string, FlagSeverity>)
    : Construction
  {
    if flagId !in registry then NoSignal
    else Emitted(RiskSignal(id, key, Some(registry[flagId]), SeverityWeight(Some(registry[flagId])), true))
  }

  /** Identity findings: as other findings, but an unregistered flag raises. */
  function SignalFromIdentity(id: string, key: string, flagId: string, registry: map<string, FlagSeverity>)
    : Construction
  {
    if flagId !in registry then Raised
    else Emitted(RiskSignal(id, key, Some(registry[flagId]), SeverityWeight(Some(registry[flagId])), true))
  }

  const CRITICAL_CAPABILITIES := {"GST / GSTN", "PAN / Income Tax", "Bidder Identity"}

  /** One non-actionable signal when some verification (capability, status) was unavailable. */
  function AvailabilitySignal(id: string, key: string, records: seq<(string, VerificationStatus)>): Construction {
    var down := set r | r in records && r.1 in {VerificationStatus.UNAVAILABLE, ERROR, NOT_FOUND};
    if down == {} then NoSignal
    else
      var severity := if exists r :: r in down && r.0 in CRITICAL_CAPABILITIES then Some(HIGH) else Some(MEDIUM);
      Emitted(RiskSignal(id, key, severity, SeverityWeight(severity), false))
  }

  /** One non-actionable HIGH signal unless every quality assessment is good. */
  function EvidenceQualitySignal(id: string, key: string, quality: seq<QualityState>): Construction {
    if exists q :: q in quality && q != GOOD then
      Emitted(RiskSignal(id, key, Some(HIGH), SeverityWeight(Some(HIGH)), false))
    else NoSignal
  }

  /** Every constructed signal is well-formed; which constructions give a signal, an
      actionable one, or an exception. */
  lemma ConstructorsWellFormed(id: string, key: string, status: ComplianceStatus, flags: seq<string>, flagId: string,
                               records: seq<(string, VerificationStatus)>, quality: seq<QualityState>,
                               registry: map<string, FlagSeverity>)
    ensures var c := SignalFromCompliance(id, key, status, flags, registry);
            && (c.Emitted? <==> status in {FAIL, WARNING, MISSING}) && !c.Raised?
            && (c.Emitted? ==> WellFormed(c.signal) && (c.signal.actionable <==> status in {FAIL, WARNING}))
    ensures var f := SignalFromFinding(id, key, flagId, registry);
            && (f.Emitted? <==> flagId in registry) && !f.Raised?
            && (f.Emitted? ==> WellFormed(f.signal) && f.signal.actionable)
    ensures var f := SignalFromIdentity(id, key, flagId, registry);
            && (f.Emitted? <==> flagId in registry) && (f.Raised? <==> flagId !in registry)
            && (f.Emitted? ==> WellFormed(f.signal) && f.signal.actionable)
    ensures var v := AvailabilitySignal(id, key, records);
            && !v.Raised? && (v.Emitted? ==> WellFormed(v.signal) && !v.signal.actionable)
            && (v.Emitted? <==> exists r :: r in records && r.1 in {VerificationStatus.UNAVAILABLE, ERROR, NOT_FOUND})
    ensures var q := EvidenceQualitySignal(id, key, quality);
            && !q.Raised? && (q.Emitted? ==> WellFormed(q.signal) && !q.signal.actionable)
            && (q.NoSignal? <==> forall s :: s in quality ==> s == GOOD)
    ensures var c := SignalFromCompliance(id, key, status, flags, registry);
            c.Emitted? ==> c.signal.signalId == id && c.signal.key == key && c.signal.severity == Some(
              if flags != [] && flags[0] in registry then registry[flags[0]]
              else if status == FAIL then HIGH else MEDIUM)
    ensures var f := SignalFromFinding(id, key, flagId, registry);
            f.Emitted? ==> f.signal.signalId == id && f.signal.key == key && f.signal.severity == Some(registry[flagId])
    ensures var f := SignalFromIdentity(id, key, flagId, registry);
            f.Emitted? ==> f.signal.signalId == id && f.signal.key == key && f.signal.severity == Some(registry[flagId])
    ensures var v := AvailabilitySignal(id, key, records);
            v.Emitted? ==> v.signal.signalId == id && v.signal.key == key && v.signal.severity == Some(
              if exists r :: r in records && r.1 in {VerificationStatus.UNAVAILABLE, ERROR, NOT_FOUND}
                             && r.0 in {"GST / GSTN", "PAN / Income Tax", "Bidder Identity"} then HIGH else MEDIUM)
    ensures var q := EvidenceQualitySignal(id, key, quality);
            q.Emitted? ==> q.signal.signalId == id && q.signal.key == key && q.signal.severity == Some(HIGH)
    ensures SeverityWeight(None) == 0.0 && SeverityWeight(Some(CRITICAL)) == 1.0 && SeverityWeight(Some(HIGH)) == 0.9
    ensures SeverityWeight(Some(MEDIUM)) == 0.6 && SeverityWeight(Some(LOW)) == 0.3 && SeverityWeight(Some(INFO)) == 0.1
  {
    var down := set r | r in records && r.1 in {VerificationStatus.UNAVAILABLE, ERROR, NOT_FOUND};
    if r :| r in records && r.1 in {VerificationStatus.UNAVAILABLE, ERROR, NOT_FOUND} {
      assert r in down;
    }
  }
}
