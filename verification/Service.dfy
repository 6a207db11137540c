/** Bid processing attempts (src/application/service.py, worker.py) over the durable
    lifecycle: one attempt is a fixed list of transactions, any of which may be
    preceded by an exception or a crash, and attempts interleave freely. */
module Service {
  import opened Pipeline
  import opened Processing

  /** One committed unit of work of an attempt. Evidence, engine outputs, findings
      and explanations touch neither rows nor snapshots and count as Persist. */
  datatype Transaction = AdvanceTo(stage: Stage) | Persist | SaveSnapshot

  const PROGRAM: seq<Transaction> := [
    AdvanceTo(NORMALIZED), Persist,
    AdvanceTo(VERIFICATION_PENDING), Persist, AdvanceTo(VERIFIED),
    AdvanceTo(AI_ANALYSIS_PENDING), Persist, AdvanceTo(AI_ANALYZED),
    AdvanceTo(EXPLANATION_PENDING), SaveSnapshot, Persist, AdvanceTo(EXPLANATION_READY),
    AdvanceTo(COMPLETE)
  ]

  /** Durable state: the lifecycle store and the bidders with a flag snapshot. */
  datatype Durable = Durable(store: Store, snapshots: set<string>)

  /** Whether the transaction commits. A snapshot needs a registered bidder. */
  predicate Commits(d: Durable, id: string, bidder: string, t: Transaction) {
    match t
    case AdvanceTo(stage) => Accepts(d.store, Advance(id, stage))
    case Persist => true
    case SaveSnapshot => bidder in d.store.bidders
  }

  function Perform(d: Durable, id: string, bidder: string, t: Transaction): Durable {
    if !Commits(d, id, bidder, t) then d
    else match t
      case AdvanceTo(stage) => d.(store := Step(d.store, Advance(id, stage)))
      case Persist => d
      case SaveSnapshot => d.(snapshots := d.snapshots + {bidder})
  }

  /** Reading back a finished submission needs a snapshot of the row's bidder. */
  predicate Reconstructs(d: Durable, id: string) {
    id in d.store.submissions && d.store.submissions[id].bidderId in d.snapshots
  }

  // ----- interleavings -----

  /** A running attempt; `failing` once an exception was raised but not yet recorded. */
  datatype Attempt = Attempt(submissionId: string, bidderId: string, pc: nat, failing: bool)

  datatype World = World(durable: Durable, attempts: map<nat, Attempt>)

  datatype Action =
    | RegisterBidder(bidder: string)
    | IngestBid(bidder: string, submission: string, documents: seq<string>)
    | Start(attempt: nat, bidder: string, submission: string)
    | Execute(attempt: nat)
    | Raise(attempt: nat)
    | RecordFailure(attempt: nat, error: string, kind: string)
    | Crash(attempt: nat)

  function WithStore(w: World, op: Operation): World {
    w.(durable := w.durable.(store := Step(w.durable.store, op)))
  }

  /** The next world. An attempt may start for any queued payload, whatever the
      row looks like; actions of attempts that do not exist change nothing. */
  function Next(w: World, a: Action): World {
    match a
    case RegisterBidder(b) => WithStore(w, Register(b))
    case IngestBid(b, id, docs) => WithStore(w, Ingest(b, id, docs))
    case Start(k, b, id) =>
      if k in w.attempts then w else w.(attempts := w.attempts[k := Attempt(id, b, 0, false)])
    case Execute(k) =>
      if k !in w.attempts || w.attempts[k].failing || w.attempts[k].pc >= |PROGRAM| then w
      else
        var p := w.attempts[k];
        var t := PROGRAM[p.pc];
        var ok := Commits(w.durable, p.submissionId, p.bidderId, t);
        World(Perform(w.durable, p.submissionId, p.bidderId, t),
              w.attempts[k := if ok then p.(pc := p.pc + 1) else p.(failing := true)])
    case Raise(k) =>
      if k !in w.attempts then w else w.(attempts := w.attempts[k := w.attempts[k].(failing := true)])
    case RecordFailure(k, error, kind) =>
      if k !in w.attempts || !w.attempts[k].failing then w
      else WithStore(w, Fail(w.attempts[k].submissionId, error, kind)).(attempts := w.attempts - {k})
    case Crash(k) => w.(attempts := w.attempts - {k})
  }

  function RunActions(w: World, actions: seq<Action>): World
    decreases |actions|
  {
    if actions == [] then w else RunActions(Next(w, actions[0]), actions[1..])
  }

  /** What the actions of an attempt do to the world, one by one. */
  lemma ActionsAct(w: World, k: nat, b: string, id: string, error: string, kind: string)
    ensures var n := Next(w, Start(k, b, id));
            && n.durable == w.durable && n.attempts.Keys == w.attempts.Keys + {k}
            && (forall j :: j in w.attempts ==> n.attempts[j] == w.attempts[j])
            && (k !in w.attempts ==> n.attempts[k] == Attempt(id, b, 0, false))
    ensures var n := Next(w, Crash(k));
            && n.durable == w.durable && n.attempts.Keys == w.attempts.Keys - {k}
            && (forall j :: j in n.attempts ==> n.attempts[j] == w.attempts[j])
    ensures var n := Next(w, Raise(k));
            && n.durable == w.durable && n.attempts.Keys == w.attempts.Keys
            && (forall j :: j in n.attempts ==>
                  n.attempts[j] == if j == k then w.attempts[j].(failing := true) else w.attempts[j])
    ensures var n := Next(w, RecordFailure(k, error, kind));
            if k in w.attempts && w.attempts[k].failing
            then && n.durable == w.durable.(store := Step(w.durable.store,
                                                          Fail(w.attempts[k].submissionId, error, kind)))
                 && n.attempts == Next(w, Crash(k)).attempts
            else n == w
  {
  }

  const EMPTY_WORLD := World(Durable(EMPTY_STORE, {}), map[])

  /** If an attempt on `id` is started, it is for the bidder that owns `id`. */
  predicate Addressed(w: World, a: Action, id: string) {
    a.Start? && a.submission == id ==>
      id in w.durable.store.submissions && w.durable.store.submissions[id].bidderId == a.bidder
  }

  /** Attempts on other submissions may be started for anyone. */
  predicate AllAddressed(w: World, actions: seq<Action>, id: string)
    decreases |actions|
  {
    actions == [] || (Addressed(w, actions[0], id) && AllAddressed(Next(w, actions[0]), actions[1..], id))
  }

  ghost predicate AttemptSafe(d: Durable, p: Attempt) {
    && p.submissionId in d.store.submissions
    && d.store.submissions[p.submissionId].bidderId == p.bidderId
    && (p.pc > 9 ==> p.bidderId in d.snapshots)
  }

  ghost predicate Safe(w: World, id: string) {
    && (id in w.durable.store.submissions && w.durable.store.submissions[id].stage == COMPLETE ==>
          Reconstructs(w.durable, id))
    && (forall k :: k in w.attempts && w.attempts[k].submissionId == id ==> AttemptSafe(w.durable, w.attempts[k]))
  }

  /** Submissions keep their bidder and snapshots are never lost. */
  ghost predicate Extends(d: Durable, e: Durable) {
    && d.snapshots <= e.snapshots
    && (forall id :: id in d.store.submissions ==>
          id in e.store.submissions && e.store.submissions[id].bidderId == d.store.submissions[id].bidderId)
  }

  lemma StepExtends(d: Durable, op: Operation)
    ensures Extends(d, d.(store := Step(d.store, op)))
  {
    hide CanMove, Addable;
  }

  lemma AttemptsStaySafe(d: Durable, e: Durable, p: Attempt)
    requires Extends(d, e) && AttemptSafe(d, p)
    ensures AttemptSafe(e, p)
  {
  }

  lemma OnlyAdvanceCompletes(s: Store, op: Operation, id: string)
    requires id in Step(s, op).submissions && Step(s, op).submissions[id].stage == COMPLETE
    requires !(op.Advance? && op.submissionId == id && op.target == COMPLETE)
    ensures id in s.submissions && s.submissions[id].stage == COMPLETE
    ensures Step(s, op).submissions[id].bidderId == s.submissions[id].bidderId
  {
    hide CanMove, Addable;
  }

  lemma ExecuteSafe(w: World, k: nat, id: string)
    requires Safe(w, id) && k in w.attempts && !w.attempts[k].failing && w.attempts[k].pc < |PROGRAM|
    ensures Safe(Next(w, Execute(k)), id)
  {
    hide CanMove;
    var p := w.attempts[k];
    var t := PROGRAM[p.pc];
    var e := Perform(w.durable, p.submissionId, p.bidderId, t);
    if t.AdvanceTo? {
      StepExtends(w.durable, Advance(p.submissionId, t.stage));
    }
    assert Extends(w.durable, e);
    forall j | j in w.attempts && w.attempts[j].submissionId == id ensures AttemptSafe(e, w.attempts[j]) {
      AttemptsStaySafe(w.durable, e, w.attempts[j]);
    }
    assert t.SaveSnapshot? <==> p.pc == 9;
    assert t == AdvanceTo(COMPLETE) <==> p.pc == 12;
    if id in e.store.submissions && e.store.submissions[id].stage == COMPLETE {
      if t.AdvanceTo? && !(id == p.submissionId && t.stage == COMPLETE) {
        OnlyAdvanceCompletes(w.durable.store, Advance(p.submissionId, t.stage), id);
      }
    }
    hide Step, Accepts;
  }

  lemma OperationSafe(w: World, op: Operation, id: string)
    requires Safe(w, id) && !op.Advance?
    ensures Safe(WithStore(w, op), id)
  {
    var e := w.durable.(store := Step(w.durable.store, op));
    StepExtends(w.durable, op);
    forall j | j in w.attempts && w.attempts[j].submissionId == id ensures AttemptSafe(e, w.attempts[j]) {
      AttemptsStaySafe(w.durable, e, w.attempts[j]);
    }
    if id in e.store.submissions && e.store.submissions[id].stage == COMPLETE {
      OnlyAdvanceCompletes(w.durable.store, op, id);
    }
  }

  lemma NextSafe(w: World, a: Action, id: string)
    requires Safe(w, id) && Addressed(w, a, id)
    ensures Safe(Next(w, a), id)
  {
    hide Step, Perform, Commits;
    match a
    case RegisterBidder(b) => OperationSafe(w, Register(b), id);
    case IngestBid(b, s, docs) => OperationSafe(w, Ingest(b, s, docs), id);
    case Start(k, b, s) =>
    case Execute(k) =>
      if k in w.attempts && !w.attempts[k].failing && w.attempts[k].pc < |PROGRAM| {
        ExecuteSafe(w, k, id);
      }
    case Raise(k) =>
    case RecordFailure(k, error, kind) =>
      if k in w.attempts {
        OperationSafe(w, Fail(w.attempts[k].submissionId, error, kind), id);
      }
    case Crash(k) =>
  }

  /** Over every interleaving whose attempts on `id` are addressed to its bidder, with
      exceptions and crashes anywhere and any other attempts beside them, `id` can be
      read back once COMPLETE. */
  lemma {:induction false} CompleteAlwaysReconstructs(w: World, actions: seq<Action>, id: string)
    requires Safe(w, id) && AllAddressed(w, actions, id)
    ensures Safe(RunActions(w, actions), id)
    decreases |actions|
  {
    if actions != [] {
      NextSafe(w, actions[0], id);
      CompleteAlwaysReconstructs(Next(w, actions[0]), actions[1..], id);
    }
  }

  lemma EveryAddressedRun(actions: seq<Action>, id: string)
    requires AllAddressed(EMPTY_WORLD, actions, id)
    ensures var d := RunActions(EMPTY_WORLD, actions).durable;
            id in d.store.submissions && d.store.submissions[id].stage == COMPLETE ==> Reconstructs(d, id)
  {
    CompleteAlwaysReconstructs(EMPTY_WORLD, actions, id);
  }

  // ----- one attempt -----

  /** Where an attempt is interrupted, by an exception or a crash: before transaction
      `pc`, or, after the last one, while the result is assembled. */
  datatype Fault = NoFault | RaiseAt(pc: nat) | CrashAt(pc: nat)

  /** What a failed attempt records: the error text and its classified kind. */
  datatype Cause = Cause(error: string, kind: string)

  function Recorded(d: Durable, id: string, cause: Cause): Durable {
    d.(store := Step(d.store, Fail(id, cause.error, cause.kind)))
  }

  /** The durable state after the attempt's transactions from `pc` on; a refused
      transaction and a raised exception both record a failure. */
  function Remaining(d: Durable, id: string, bidder: string, pc: nat, fault: Fault, cause: Cause): Durable
    requires pc <= |PROGRAM|
    decreases |PROGRAM| - pc
  {
    if fault == CrashAt(pc) then d
    else if fault == RaiseAt(pc) then Recorded(d, id, cause)
    else if pc == |PROGRAM| then d
    else if !Commits(d, id, bidder, PROGRAM[pc]) then Recorded(d, id, cause)
    else Remaining(Perform(d, id, bidder, PROGRAM[pc]), id, bidder, pc + 1, fault, cause)
  }

  /** Whether nothing interrupts the attempt from `pc` on. */
  predicate Spares(fault: Fault, pc: nat) {
    fault.NoFault? || fault.pc < pc || fault.pc > |PROGRAM|
  }

  /** Whether the attempt returns a result, all its transactions from `pc` on having committed. */
  predicate Finishes(d: Durable, id: string, bidder: string, pc: nat, fault: Fault)
    requires pc <= |PROGRAM|
    decreases |PROGRAM| - pc
  {
    fault != CrashAt(pc) && fault != RaiseAt(pc)
    && (pc == |PROGRAM|
        || (Commits(d, id, bidder, PROGRAM[pc])
            && Finishes(Perform(d, id, bidder, PROGRAM[pc]), id, bidder, pc + 1, fault)))
  }

  /** The stage a submission is in when its attempt reaches transaction `pc`. */
  function StageBefore(pc: nat): Stage
    requires 1 <= pc <= |PROGRAM|
  {
    if pc <= 2 then NORMALIZED
    else if pc <= 4 then VERIFICATION_PENDING
    else if pc == 5 then VERIFIED
    else if pc <= 7 then AI_ANALYSIS_PENDING
    else if pc == 8 then AI_ANALYZED
    else if pc <= 11 then EXPLANATION_PENDING
    else if pc == 12 then EXPLANATION_READY
    else COMPLETE
  }

  predicate Reached(d: Durable, id: string, bidder: string, pc: nat)
    requires 1 <= pc <= |PROGRAM|
  {
    id in d.store.submissions && d.store.submissions[id].stage == StageBefore(pc) && bidder in d.store.bidders
  }

  function AdvancesLeft(pc: nat): nat
    requires pc <= |PROGRAM|
    decreases |PROGRAM| - pc
  {
    if pc == |PROGRAM| then 0 else (if PROGRAM[pc].AdvanceTo? then 1 else 0) + AdvancesLeft(pc + 1)
  }

  lemma NextReached(d: Durable, id: string, bidder: string, pc: nat)
    requires 1 <= pc < |PROGRAM| && Reached(d, id, bidder, pc)
    ensures Commits(d, id, bidder, PROGRAM[pc])
    ensures var e := Perform(d, id, bidder, PROGRAM[pc]);
            && Reached(e, id, bidder, pc + 1)
            && e.store.submissions[id].bidderId == d.store.submissions[id].bidderId
            && e.store.submissions[id].attempts == d.store.submissions[id].attempts
            && |e.store.audit| == |d.store.audit| + (if PROGRAM[pc].AdvanceTo? then 1 else 0)
            && e.snapshots == d.snapshots + (if pc == 9 then {bidder} else {})
  {
  }

  /** Once under way without interruption an attempt performs all advances left
      and ends in COMPLETE, with the snapshot of its bidder saved. */
  lemma {:induction false} RunsThrough(d: Durable, id: string, bidder: string, pc: nat, cause: Cause)
    requires 1 <= pc <= |PROGRAM| && Reached(d, id, bidder, pc)
    ensures var e := Remaining(d, id, bidder, pc, NoFault, cause);
            && Reached(e, id, bidder, |PROGRAM|)
            && e.store.submissions[id].bidderId == d.store.submissions[id].bidderId
            && e.store.submissions[id].attempts == d.store.submissions[id].attempts
            && |e.store.audit| == |d.store.audit| + AdvancesLeft(pc)
            && e.snapshots == d.snapshots + (if pc <= 9 then {bidder} else {})
    decreases |PROGRAM| - pc
  {
    hide Reached, Perform, Commits;
    if pc < |PROGRAM| {
      NextReached(d, id, bidder, pc);
      RunsThrough(Perform(d, id, bidder, PROGRAM[pc]), id, bidder, pc + 1, cause);
    }
  }

  /** Once under way an attempt finishes exactly when nothing interrupts it, and it
      then has the effect of an attempt without faults. */
  lemma {:induction false} FinishesUnlessInterrupted(d: Durable, id: string, bidder: string, pc: nat, fault: Fault,
                                                     cause: Cause)
    requires 1 <= pc <= |PROGRAM| && Reached(d, id, bidder, pc)
    ensures Finishes(d, id, bidder, pc, fault) <==> Spares(fault, pc)
    ensures Spares(fault, pc) ==>
            Remaining(d, id, bidder, pc, fault, cause) == Remaining(d, id, bidder, pc, NoFault, cause)
    decreases |PROGRAM| - pc
  {
    hide Reached, Perform, Commits;
    if pc < |PROGRAM| {
      NextReached(d, id, bidder, pc);
      FinishesUnlessInterrupted(Perform(d, id, bidder, PROGRAM[pc]), id, bidder, pc + 1, fault, cause);
    }
  }

  /** An exception at any point of an attempt under way, even while the result of a
      completed one is assembled, leaves the submission FAILED with one attempt more;
      a crash leaves it at the stage it had reached. */
  lemma {:induction false} InterruptedOutcome(d: Durable, id: string, bidder: string, pc: nat, fault: Fault,
                                              cause: Cause)
    requires 1 <= pc <= |PROGRAM| && Reached(d, id, bidder, pc) && !Spares(fault, pc)
    ensures var e := Remaining(d, id, bidder, pc, fault, cause);
            && id in e.store.submissions
            && (fault.RaiseAt? ==> e.store.submissions[id].stage == FAILED
                                   && e.store.submissions[id].attempts == d.store.submissions[id].attempts + 1)
            && (fault.CrashAt? ==> Reached(e, id, bidder, fault.pc)
                                   && e.store.submissions[id].attempts == d.store.submissions[id].attempts)
            && e.snapshots == d.snapshots + (if pc <= 9 < fault.pc then {bidder} else {})
    decreases |PROGRAM| - pc
  {
    hide Reached, Perform, Commits, Recorded;
    if fault.pc == pc {
      RecordedFailure(d, id, bidder, pc, cause);
    } else {
      NextReached(d, id, bidder, pc);
      InterruptedOutcome(Perform(d, id, bidder, PROGRAM[pc]), id, bidder, pc + 1, fault, cause);
    }
  }

  lemma RecordedFailure(d: Durable, id: string, bidder: string, pc: nat, cause: Cause)
    requires 1 <= pc <= |PROGRAM| && Reached(d, id, bidder, pc)
    ensures var e := Recorded(d, id, cause);
            && id in d.store.submissions && id in e.store.submissions
            && e.store.submissions[id].stage == FAILED
            && e.store.submissions[id].attempts == d.store.submissions[id].attempts + 1
            && e.snapshots == d.snapshots
  {
    hide CanMove, Addable;
  }

  /** A bid that is new and accepted returns a result exactly when nothing
      interrupts its attempt; it is then COMPLETE, without a failed attempt, and can
      be read back. */
  lemma NewBidFinishes(d: Durable, id: string, bidder: string, docs: seq<string>, fault: Fault, cause: Cause)
    requires Accepts(d.store, Ingest(bidder, id, docs))
    ensures var i := d.(store := Step(d.store, Ingest(bidder, id, docs)));
            var e := Remaining(i, id, bidder, 0, fault, cause);
            && (Finishes(i, id, bidder, 0, fault) <==> Spares(fault, 0))
            && (Spares(fault, 0) ==>
                  && Reconstructs(e, id)
                  && e.store.submissions[id].stage == COMPLETE
                  && e.store.submissions[id].attempts == 0
                  && e.store.submissions[id].bidderId == bidder)
  {
    var i := d.(store := Step(d.store, Ingest(bidder, id, docs)));
    var e := Perform(i, id, bidder, PROGRAM[0]);
    assert Commits(i, id, bidder, PROGRAM[0]) && Reached(e, id, bidder, 1);
    assert e.store.submissions[id].bidderId == bidder && e.store.submissions[id].attempts == 0;
    hide Reached, Perform, Commits, Step, Accepts;
    FinishesUnlessInterrupted(e, id, bidder, 1, fault, cause);
    RunsThrough(e, id, bidder, 1, cause);
    Finished(Remaining(e, id, bidder, 1, NoFault, cause), id, bidder);
  }

  /** A completed attempt can be read back exactly when it was addressed to the
      row's own bidder or that bidder already had a snapshot. */
  lemma AttemptReadsBackIff(d: Durable, id: string, bidder: string, cause: Cause)
    requires id in d.store.submissions && bidder in d.store.bidders
    requires d.store.submissions[id].stage in {INGESTED, NORMALIZED, FAILED}
    ensures Reconstructs(Remaining(d, id, bidder, 0, NoFault, cause), id) <==>
            var owner := d.store.submissions[id].bidderId; owner == bidder || owner in d.snapshots
  {
    var e := Perform(d, id, bidder, PROGRAM[0]);
    assert Commits(d, id, bidder, PROGRAM[0]) && Reached(e, id, bidder, 1);
    assert e.store.submissions[id].bidderId == d.store.submissions[id].bidderId;
    hide Reached, Perform, Commits;
    RunsThrough(e, id, bidder, 1, cause);
    Finished(Remaining(e, id, bidder, 1, NoFault, cause), id, bidder);
  }

  /** An uninterrupted attempt is accepted exactly from INGESTED, NORMALIZED or
      FAILED, and then reaches COMPLETE after all eight advances; from any other
      stage, COMPLETE included, it leaves the submission FAILED. */
  lemma AttemptOutcome(d: Durable, id: string, bidder: string, cause: Cause)
    requires id in d.store.submissions && bidder in d.store.bidders
    ensures var stage, e := d.store.submissions[id].stage, Remaining(d, id, bidder, 0, NoFault, cause);
            id in e.store.submissions &&
            if stage in {INGESTED, NORMALIZED, FAILED} then
              && e.store.submissions[id].stage == COMPLETE
              && e.store.submissions[id].attempts == d.store.submissions[id].attempts
              && |e.store.audit| == |d.store.audit| + 8
              && e.snapshots == d.snapshots + {bidder}
            else
              && e.store.submissions[id].stage == FAILED
              && e.store.submissions[id].attempts == d.store.submissions[id].attempts + 1
              && e.snapshots == d.snapshots
  {
    var e := Perform(d, id, bidder, PROGRAM[0]);
    if Commits(d, id, bidder, PROGRAM[0]) {
      assert Reached(e, id, bidder, 1);
      EightAdvances();
      hide Reached;
      RunsThrough(e, id, bidder, 1, cause);
      Finished(Remaining(e, id, bidder, 1, NoFault, cause), id, bidder);
    }
  }

  lemma EightAdvances()
    ensures AdvancesLeft(1) == 7
  {
    assert AdvancesLeft(12) == 1;
    assert AdvancesLeft(9) == 2;
    assert AdvancesLeft(6) == 4;
    assert AdvancesLeft(3) == 6;
  }

  lemma Finished(d: Durable, id: string, bidder: string)
    ensures Reached(d, id, bidder, |PROGRAM|) ==> id in d.store.submissions && d.store.submissions[id].stage == COMPLETE
  {
  }

  /** After a crash mid-way the next attempt only records a failure, and the one
      after it completes; after completion a redelivered attempt undoes it. */
  lemma CrashCostsOneAttempt(d: Durable, id: string, bidder: string, c1: Cause, c2: Cause)
    requires id in d.store.submissions && bidder in d.store.bidders
    requires d.store.submissions[id].stage !in {INGESTED, NORMALIZED, FAILED}
    ensures var e := Remaining(d, id, bidder, 0, NoFault, c1);
            && id in e.store.submissions && e.store.submissions[id].stage == FAILED
            && id in Remaining(e, id, bidder, 0, NoFault, c2).store.submissions
            && Remaining(e, id, bidder, 0, NoFault, c2).store.submissions[id].stage == COMPLETE
  {
    AttemptOutcome(d, id, bidder, c1);
    var e := Remaining(d, id, bidder, 0, NoFault, c1);
    assert bidder in e.store.bidders;
    hide Remaining;
    AttemptOutcome(e, id, bidder, c2);
  }

  // ----- a misaddressed attempt -----

  lemma {:induction false} ExecutesAre(w: World, k: nat, cause: Cause)
    requires k in w.attempts && !w.attempts[k].failing && 1 <= w.attempts[k].pc <= |PROGRAM|
    requires Reached(w.durable, w.attempts[k].submissionId, w.attempts[k].bidderId, w.attempts[k].pc)
    ensures var p := w.attempts[k];
            RunActions(w, seq(|PROGRAM| - p.pc, _ => Execute(k))).durable ==
            Remaining(w.durable, p.submissionId, p.bidderId, p.pc, NoFault, cause)
    decreases |PROGRAM| - w.attempts[k].pc
  {
    hide Reached, Perform, Commits;
    var p := w.attempts[k];
    var steps := seq(|PROGRAM| - p.pc, _ => Execute(k));
    if p.pc < |PROGRAM| {
      NextReached(w.durable, p.submissionId, p.bidderId, p.pc);
      assert steps[1..] == seq(|PROGRAM| - (p.pc + 1), _ => Execute(k));
      ExecutesAre(Next(w, Execute(k)), k, cause);
    }
  }

  /** Started for any other registered bidder, an attempt completes the submission
      while its own bidder has no snapshot: reading the result back then fails. */
  lemma MisaddressedAttemptCannotBeReadBack(id: string, owner: string, other: string, docs: seq<string>)
    requires owner != other && docs != [] && Addable(docs, map[])
    ensures var actions := [IngestBid(owner, id, docs), RegisterBidder(other), Start(0, other, id), Execute(0)]
                           + seq(|PROGRAM| - 1, _ => Execute(0));
            var d := RunActions(EMPTY_WORLD, actions).durable;
            && id in d.store.submissions && d.store.submissions[id].stage == COMPLETE
            && !Reconstructs(d, id)
  {
    var tail := seq(|PROGRAM| - 1, _ => Execute(0));
    var head := [IngestBid(owner, id, docs), RegisterBidder(other), Start(0, other, id), Execute(0)];
    var w1 := Next(EMPTY_WORLD, head[0]);
    var w2 := Next(w1, head[1]);
    var w3 := Next(w2, head[2]);
    var w := Next(w3, head[3]);
    Unroll(EMPTY_WORLD, head[0], head[1], head[2], head[3], tail);
    assert id in w1.durable.store.submissions;
    assert Reached(w.durable, id, other, 1) && w.attempts[0] == Attempt(id, other, 1, false);
    assert w.durable.store.submissions[id].bidderId == owner && w.durable.snapshots == {};
    var cause := Cause("", "");
    hide Reached, Next, RunActions, Remaining;
    ExecutesAre(w, 0, cause);
    RunsThrough(w.durable, id, other, 1, cause);
    Finished(Remaining(w.durable, id, other, 1, NoFault, cause), id, other);
  }

  lemma Unroll(w: World, a: Action, b: Action, c: Action, e: Action, rest: seq<Action>)
    ensures RunActions(w, [a, b, c, e] + rest) == RunActions(Next(Next(Next(Next(w, a), b), c), e), rest)
  {
    hide Next;
    var w1, w2, w3 := Next(w, a), Next(Next(w, a), b), Next(Next(Next(w, a), b), c);
    assert ([a, b, c, e] + rest)[1..] == [b, c, e] + rest;
    assert RunActions(w, [a, b, c, e] + rest) == RunActions(w1, [b, c, e] + rest);
    assert ([b, c, e] + rest)[1..] == [c, e] + rest;
    assert RunActions(w1, [b, c, e] + rest) == RunActions(w2, [c, e] + rest);
    assert ([c, e] + rest)[1..] == [e] + rest;
    assert RunActions(w2, [c, e] + rest) == RunActions(w3, [e] + rest);
    assert ([e] + rest)[1..] == rest;
  }

  // ----- the service object -----

  datatype BidResult = Completed | ReadBack | MissingSnapshot | AlreadyExists | Refused | Interrupted

  class ComplianceApplicationService {
    const coordinator: ProcessingCoordinator
    var snapshots: set<string>

    function View(): Durable
      reads this, coordinator
    {
      Durable(coordinator.View(), snapshots)
    }

    constructor ()
      ensures View() == Durable(EMPTY_STORE, {}) && fresh(coordinator)
    {
      coordinator := new ProcessingCoordinator();
      snapshots := {};
    }

    /** Performs transaction `pc`, or records the failure; false ends the attempt. */
    method Transact(id: string, bidder: string, pc: nat, fault: Fault, cause: Cause) returns (ok: bool)
      requires pc < |PROGRAM|
      modifies this, coordinator
      ensures ok <==> fault != CrashAt(pc) && fault != RaiseAt(pc) && Commits(old(View()), id, bidder, PROGRAM[pc])
      ensures ok ==> View() == Perform(old(View()), id, bidder, PROGRAM[pc])
      ensures ok ==>
                Remaining(old(View()), id, bidder, pc, fault, cause) ==
                Remaining(View(), id, bidder, pc + 1, fault, cause)
      ensures Finishes(old(View()), id, bidder, pc, fault) <==> ok && Finishes(View(), id, bidder, pc + 1, fault)
      ensures !ok ==> View() == Remaining(old(View()), id, bidder, pc, fault, cause)
    {
      hide Step, Accepts;
      if fault == CrashAt(pc) {
        return false;
      }
      ok := fault != RaiseAt(pc);
      if ok {
        match PROGRAM[pc]
        case AdvanceTo(stage) => ok := coordinator.AdvanceStage(id, stage);
        case Persist =>
        case SaveSnapshot =>
          if bidder in coordinator.bidders {
            snapshots := snapshots + {bidder};
          } else {
            ok := false;
          }
      }
      if !ok {
        RefusedAdvance(old(View()), id, bidder, pc);
        var _ := coordinator.FailSubmission(id, cause.error, cause.kind);
      }
    }

    /** Assembles the result of the committed attempt, or records the failure. */
    method Assemble(id: string, bidder: string, fault: Fault, cause: Cause) returns (ok: bool)
      modifies this, coordinator
      ensures View() == Remaining(old(View()), id, bidder, |PROGRAM|, fault, cause)
      ensures ok <==> Finishes(old(View()), id, bidder, |PROGRAM|, fault)
    {
      hide Step, Accepts;
      if fault == RaiseAt(|PROGRAM|) {
        var _ := coordinator.FailSubmission(id, cause.error, cause.kind);
      }
      ok := fault != RaiseAt(|PROGRAM|) && fault != CrashAt(|PROGRAM|);
    }

    /** One attempt on an ingested submission, transaction by transaction. */
    method ProcessExistingSubmission(id: string, bidder: string, fault: Fault, cause: Cause) returns (ok: bool)
      modifies this, coordinator
      ensures View() == Remaining(old(View()), id, bidder, 0, fault, cause)
      ensures ok <==> Finishes(old(View()), id, bidder, 0, fault)
    {
      hide Remaining, Finishes, Perform, Commits, Recorded, ComplianceApplicationService.View;
      ok := true;
      var pc := 0;
      while ok && pc < |PROGRAM|
        invariant pc <= |PROGRAM|
        invariant ok ==>
                    Remaining(View(), id, bidder, pc, fault, cause) ==
                    Remaining(old(View()), id, bidder, 0, fault, cause)
        invariant ok ==> (Finishes(View(), id, bidder, pc, fault) <==> Finishes(old(View()), id, bidder, 0, fault))
        invariant !ok ==> View() == Remaining(old(View()), id, bidder, 0, fault, cause)
        invariant !ok ==> !Finishes(old(View()), id, bidder, 0, fault)
      {
        ok := Transact(id, bidder, pc, fault, cause);
        pc := pc + 1;
      }
      if ok {
        ok := Assemble(id, bidder, fault, cause);
      }
    }

    /** End-to-end processing: a finished submission is read back, an unfinished one
        refused, and a new one ingested and attempted. */
    method ProcessBid(id: string, bidder: string, docs: seq<string>, fault: Fault, cause: Cause) returns (r: BidResult)
      modifies this, coordinator
      ensures id in old(View()).store.submissions ==> View() == old(View())
      ensures id in old(View()).store.submissions && old(View()).store.submissions[id].stage != COMPLETE ==>
              r == AlreadyExists
      ensures id in old(View()).store.submissions && old(View()).store.submissions[id].stage == COMPLETE ==>
                r == if Reconstructs(old(View()), id) then ReadBack else MissingSnapshot
      ensures id !in old(View()).store.submissions && !Accepts(old(View()).store, Ingest(bidder, id, docs)) ==>
                r == Refused && View() == old(View())
      ensures id !in old(View()).store.submissions && Accepts(old(View()).store, Ingest(bidder, id, docs)) ==>
                var i := old(View()).(store := Step(old(View()).store, Ingest(bidder, id, docs)));
                && View() == Remaining(i, id, bidder, 0, fault, cause)
                && r == if Finishes(i, id, bidder, 0, fault) then Completed else Interrupted
    {
      hide Remaining, Finishes, Step, Accepts;
      if id in coordinator.submissions {
        var row := coordinator.submissions[id];
        if row.stage != COMPLETE {
          return AlreadyExists;
        }
        return if row.bidderId in snapshots then ReadBack else MissingSnapshot;
      }
      var ingested := coordinator.IngestSubmission(bidder, id, docs);
      if !ingested {
        RefusedChangesNothing(old(View()).store, Ingest(bidder, id, docs));
        return Refused;
      }
      var ok := ProcessExistingSubmission(id, bidder, fault, cause);
      r := if ok then Completed else Interrupted;
    }
  }

  lemma RefusedChangesNothing(s: Store, op: Operation)
    ensures !Accepts(s, op) ==> Step(s, op) == s
  {
  }

  lemma RefusedAdvance(d: Durable, id: string, bidder: string, pc: nat)
    requires pc < |PROGRAM|
    ensures PROGRAM[pc].AdvanceTo? && !Accepts(d.store, Advance(id, PROGRAM[pc].stage)) ==>
              Step(d.store, Advance(id, PROGRAM[pc].stage)) == d.store
  {
  }
}
