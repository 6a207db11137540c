/** The durable submission lifecycle (src/infrastructure/processing.py). Each
    operation is one transaction: it commits as a whole or changes nothing. */
module Processing {
  import opened Ordering
  import opened Pipeline

  datatype Submission = Submission(
    bidderId: string,
    stage: Stage,
    lastCompleted: Option<Stage>,
    attempts: nat,
    lastError: Option<(string, string)>
  )

  datatype AuditEvent =
    | Ingested(submissionId: string, bidderId: string, documents: seq<string>)
    | Advanced(submissionId: string, from: Stage, to: Stage)
    | Failed(submissionId: string, error: string, kind: string)

  /** An entry of the audit log, about a submission or a bidder. */
  datatype AuditRecord = BidderCreated(bidderId: string) | About(event: AuditEvent)

  datatype Store = Store(
    bidders: set<string>,
    submissions: map<string, Submission>,
    documents: map<string, string>,
    audit: seq<AuditRecord>,
    outbox: seq<string>
  )

  datatype Operation =
    | Register(bidderId: string)
    | Ingest(bidderId: string, submissionId: string, documents: seq<string>)
    | Advance(submissionId: string, target: Stage)
    | Fail(submissionId: string, error: string, kind: string)

  const EMPTY_STORE := Store({}, map[], map[], [], [])

  const COMPLETABLE_STAGES := {INGESTED, NORMALIZED, VERIFIED, AI_ANALYZED, EXPLANATION_READY, COMPLETE}

  /** Whether the documents can be added: no id is stored already or repeated. */
  predicate Addable(documents: seq<string>, stored: map<string, string>) {
    && (forall i :: 0 <= i < |documents| ==> documents[i] !in stored)
    && (forall i, j :: 0 <= i < j < |documents| ==> documents[i] != documents[j])
  }

  function Tagged(documents: seq<string>, id: string): map<string, string> {
    map d | d in documents :: id
  }

  predicate Accepts(s: Store, op: Operation) {
    match op
    case Register(b) => true
    case Ingest(b, id, docs) => id !in s.submissions && Addable(docs, s.documents)
    case Advance(id, target) => id in s.submissions && CanMove(s.submissions[id].stage, target)
    case Fail(id, _, _) => id in s.submissions
  }

  function AdvancedRow(row: Submission, target: Stage): Submission {
    row.(stage := target,
         lastCompleted := if target in COMPLETABLE_STAGES then Some(target) else row.lastCompleted,
         lastError := None)
  }

  function FailedRow(row: Submission, error: string, kind: string): Submission {
    row.(stage := FAILED, attempts := row.attempts + 1, lastError := Some((error, kind)))
  }

  /** The store after one operation; a refused operation rolls back. */
  function Step(s: Store, op: Operation): Store {
    if !Accepts(s, op) then s
    else match op
      case Register(b) =>
        if b in s.bidders then s
        else s.(bidders := s.bidders + {b}, audit := s.audit + [BidderCreated(b)])
      case Ingest(b, id, docs) =>
        s.(bidders := s.bidders + {b},
           submissions := s.submissions[id := Submission(b, INGESTED, None, 0, None)],
           documents := s.documents + Tagged(docs, id),
           audit := s.audit + [About(Ingested(id, b, docs))],
           outbox := s.outbox + [id])
      case Advance(id, target) =>
        s.(submissions := s.submissions[id := AdvancedRow(s.submissions[id], target)],
           audit := s.audit + [About(Advanced(id, s.submissions[id].stage, target))])
      case Fail(id, error, kind) =>
        s.(submissions := s.submissions[id := FailedRow(s.submissions[id], error, kind)],
           audit := s.audit + [About(Failed(id, error, kind))])
  }

  function Run(s: Store, ops: seq<Operation>): Store
    decreases |ops|
  {
    if ops == [] then s else Run(Step(s, ops[0]), ops[1..])
  }

  /** Adds the documents one by one; stops at the first duplicate. */
  method AddDocuments(docs: seq<string>, documents: map<string, string>, id: string)
    returns (ok: bool, stored: map<string, string>)
    ensures ok == Addable(docs, documents)
    ensures ok ==> stored == documents + Tagged(docs, id)
  {
    hide Tagged;
    stored := documents;
    TaggedNone(documents, id);
    for i := 0 to |docs|
      invariant forall j :: 0 <= j < i ==> docs[j] !in documents
      invariant forall j, k :: 0 <= j < k < i ==> docs[j] != docs[k]
      invariant stored == documents + Tagged(docs[..i], id)
    {
      TaggedStep(docs, i, documents, id);
      if docs[i] in stored {
        return false, stored;
      }
      stored := stored[docs[i] := id];
    }
    assert docs[..|docs|] == docs;
    ok := true;
  }

  lemma TaggedNone(documents: map<string, string>, id: string)
    ensures documents + Tagged([], id) == documents
  {
  }

  lemma TaggedStep(docs: seq<string>, i: nat, documents: map<string, string>, id: string)
    requires i < |docs|
    ensures documents + Tagged(docs[..i + 1], id) == (documents + Tagged(docs[..i], id))[docs[i] := id]
    ensures docs[i] in documents + Tagged(docs[..i], id) <==>
            docs[i] in documents || exists j :: 0 <= j < i && docs[j] == docs[i]
  {
    assert docs[..i + 1] == docs[..i] + [docs[i]];
    assert docs[i] in docs[..i] <==> exists j :: 0 <= j < i && docs[j] == docs[i];
  }

  class ProcessingCoordinator {
    var bidders: set<string>
    var submissions: map<string, Submission>
    var documents: map<string, string>
    var audit: seq<AuditRecord>
    var outbox: seq<string>

    function View(): Store
      reads this
    {
      Store(bidders, submissions, documents, audit, outbox)
    }

    constructor ()
      ensures View() == EMPTY_STORE
    {
      bidders, submissions, documents, audit, outbox := {}, map[], map[], [], [];
    }

    method RegisterBidder(bidderId: string)
      modifies this
      ensures View() == Step(old(View()), Register(bidderId))
    {
      if bidderId in bidders {
        return;
      }
      bidders := bidders + {bidderId};
      audit := audit + [BidderCreated(bidderId)];
    }

    method IngestSubmission(bidderId: string, submissionId: string, docs: seq<string>) returns (ok: bool)
      modifies this
      ensures ok == Accepts(old(View()), Ingest(bidderId, submissionId, docs))
      ensures View() == Step(old(View()), Ingest(bidderId, submissionId, docs))
    {
      if submissionId in submissions {
        return false;
      }
      var addable, stored := AddDocuments(docs, documents, submissionId);
      if !addable {
        return false;
      }
      bidders := bidders + {bidderId};
      submissions := submissions[submissionId := Submission(bidderId, INGESTED, None, 0, None)];
      documents := stored;
      audit := audit + [About(Ingested(submissionId, bidderId, docs))];
      outbox := outbox + [submissionId];
      ok := true;
    }

    method AdvanceStage(submissionId: string, target: Stage) returns (ok: bool)
      modifies this
      ensures ok == Accepts(old(View()), Advance(submissionId, target))
      ensures View() == Step(old(View()), Advance(submissionId, target))
    {
      if submissionId !in submissions || !CanMove(submissions[submissionId].stage, target) {
        return false;
      }
      var row := submissions[submissionId];
      var lastCompleted := row.lastCompleted;
      if target in COMPLETABLE_STAGES {
        lastCompleted := Some(target);
      }
      submissions := submissions[submissionId :=
                                 row.(stage := target, lastCompleted := lastCompleted, lastError := None)];
      audit := audit + [About(Advanced(submissionId, row.stage, target))];
      ok := true;
    }

    method FailSubmission(submissionId: string, error: string, kind: string) returns (ok: bool)
      modifies this
      ensures ok == Accepts(old(View()), Fail(submissionId, error, kind))
      ensures View() == Step(old(View()), Fail(submissionId, error, kind))
    {
      if submissionId !in submissions {
        return false;
      }
      var row := submissions[submissionId];
      submissions := submissions[submissionId :=
        row.(stage := FAILED, attempts := row.attempts + 1, lastError := Some((error, kind)))];
      audit := audit + [About(Failed(submissionId, error, kind))];
      ok := true;
    }
  }

  /** An advance records as completed the stages that are not pending; every advance
      clears the error. */
  lemma AdvanceRecords(row: Submission, target: Stage)
    ensures var r := AdvancedRow(row, target);
            && r.stage == target && r.lastError == None && r.attempts == row.attempts && r.bidderId == row.bidderId
            && r.lastCompleted ==
               if target in {VERIFICATION_PENDING, AI_ANALYSIS_PENDING, EXPLANATION_PENDING, FAILED}
               then row.lastCompleted
               else Some(target)
  {
  }

  // ----- the row is recomputed from its audit history -----

  /** The audit events of one submission, oldest first. */
  function History(audit: seq<AuditRecord>, id: string): seq<AuditEvent> {
    if audit == [] then []
    else
      var before, last := History(audit[..|audit| - 1], id), audit[|audit| - 1];
      if last.About? && last.event.submissionId == id then before + [last.event] else before
  }

  /** The bidders whose creation was recorded, in order. */
  function CreatedBidders(audit: seq<AuditRecord>): seq<string> {
    if audit == [] then []
    else
      var before, last := CreatedBidders(audit[..|audit| - 1]), audit[|audit| - 1];
      if last.BidderCreated? then before + [last.bidderId] else before
  }

  function StageAfter(e: AuditEvent): Stage {
    match e
    case Ingested(_, _, _) => INGESTED
    case Advanced(_, _, to) => to
    case Failed(_, _, _) => FAILED
  }

  function FailureCount(h: seq<AuditEvent>): nat {
    if h == [] then 0 else FailureCount(h[..|h| - 1]) + if h[|h| - 1].Failed? then 1 else 0
  }

  /** The most recent completable stage advanced to. */
  function LastCompleted(h: seq<AuditEvent>): Option<Stage> {
    if h == [] then None
    else
      var e := h[|h| - 1];
      if e.Advanced? && e.to in COMPLETABLE_STAGES then Some(e.to) else LastCompleted(h[..|h| - 1])
  }

  /** `e` may follow `prev`: an advance leaves the stage `prev` reached, by an allowed move. */
  predicate Follows(prev: AuditEvent, e: AuditEvent) {
    match e
    case Ingested(_, _, _) => false
    case Advanced(_, from, to) => from == StageAfter(prev) && CanMove(from, to)
    case Failed(_, _, _) => true
  }

  /** A history starts with its only ingestion and each event may follow the last. */
  predicate WellLinked(h: seq<AuditEvent>) {
    if |h| <= 1 then h != [] && h[0].Ingested?
    else WellLinked(h[..|h| - 1]) && Follows(h[|h| - 2], h[|h| - 1])
  }

  lemma {:induction false} LinkedThroughout(h: seq<AuditEvent>, i: nat)
    requires WellLinked(h) && 1 <= i < |h|
    ensures h[0].Ingested? && Follows(h[i - 1], h[i])
  {
    if |h| > 2 {
      var g := h[..|h| - 1];
      assert g[0] == h[0];
      if i < |h| - 1 {
        LinkedThroughout(g, i);
      } else {
        LinkedThroughout(g, 1);
      }
    }
  }

  /** The row is determined by the history alone. */
  predicate Explains(h: seq<AuditEvent>, row: Submission) {
    && WellLinked(h)
    && h[0].Ingested? && row.bidderId == h[0].bidderId
    && row.stage == StageAfter(h[|h| - 1])
    && row.attempts == FailureCount(h)
    && row.lastCompleted == LastCompleted(h)
    && row.lastError == if h[|h| - 1].Failed? then Some((h[|h| - 1].error, h[|h| - 1].kind)) else None
  }

  ghost predicate Consistent(s: Store) {
    && (forall id :: id in s.submissions ==> Explains(History(s.audit, id), s.submissions[id]))
    && (forall id :: id !in s.submissions ==> History(s.audit, id) == [])
    && (forall id :: id in s.submissions ==> s.submissions[id].bidderId in s.bidders)
    && s.outbox == IngestedIds(s.audit)
    && CreationsRecordedOnce(s)
    && DocumentsRecorded(s)
  }

  /** The stored documents are those the ingestions list, each under its submission. */
  ghost predicate DocumentsRecorded(s: Store) {
    && (forall id :: id in s.submissions ==>
          forall d :: d in IngestedWith(s.audit, id) ==> d in s.documents && s.documents[d] == id)
    && (forall d :: d in s.documents ==> s.documents[d] in s.submissions && d in IngestedWith(s.audit, s.documents[d]))
  }

  /** The documents a submission was ingested with. */
  ghost function IngestedWith(audit: seq<AuditRecord>, id: string): seq<string> {
    var h := History(audit, id);
    if h != [] && h[0].Ingested? then h[0].documents else []
  }

  /** A creation is recorded at most once for a bidder, and only for a stored one. */
  ghost predicate CreationsRecordedOnce(s: Store) {
    var created := CreatedBidders(s.audit);
    && (forall b :: b in created ==> b in s.bidders)
    && (forall i, j :: 0 <= i < j < |created| ==> created[i] != created[j])
  }

  function IngestedIds(audit: seq<AuditRecord>): seq<string> {
    if audit == [] then []
    else
      var before, last := IngestedIds(audit[..|audit| - 1]), audit[|audit| - 1];
      if last.About? && last.event.Ingested? then before + [last.event.submissionId] else before
  }

  lemma AppendEvent(audit: seq<AuditRecord>, e: AuditEvent)
    ensures forall id :: History(audit + [About(e)], id) == if e.submissionId == id then History(audit, id) + [e]
            else History(audit, id)
    ensures IngestedIds(audit + [About(e)]) == if e.Ingested? then IngestedIds(audit) + [e.submissionId]
            else IngestedIds(audit)
    ensures CreatedBidders(audit + [About(e)]) == CreatedBidders(audit)
  {
    assert (audit + [About(e)])[..|audit|] == audit;
  }

  lemma AppendCreation(audit: seq<AuditRecord>, b: string)
    ensures forall id :: History(audit + [BidderCreated(b)], id) == History(audit, id)
    ensures IngestedIds(audit + [BidderCreated(b)]) == IngestedIds(audit)
    ensures CreatedBidders(audit + [BidderCreated(b)]) == CreatedBidders(audit) + [b]
  {
    assert (audit + [BidderCreated(b)])[..|audit|] == audit;
  }

  lemma AppendExplains(h: seq<AuditEvent>, row: Submission, e: AuditEvent)
    requires Explains(h, row)
    ensures e.Advanced? && e.from == row.stage && CanMove(e.from, e.to) ==> Explains(h + [e], AdvancedRow(row, e.to))
    ensures e.Failed? ==> Explains(h + [e], FailedRow(row, e.error, e.kind))
  {
    hide CanMove;
    assert (h + [e])[..|h|] == h;
    assert (h + [e])[0] == h[0];
  }

  lemma RowUpdated(s: Store, id: string, row: Submission, e: AuditEvent, s': Store)
    requires Consistent(s) && e.submissionId == id
    requires s'.submissions == s.submissions[id := row] && s'.audit == s.audit + [About(e)]
    requires s'.outbox == if e.Ingested? then s.outbox + [id] else s.outbox
    requires s.bidders <= s'.bidders && row.bidderId in s'.bidders
    requires Explains(History(s.audit, id) + [e], row) && DocumentsRecorded(s')
    ensures Consistent(s')
  {
    hide Explains, History, IngestedIds, CreatedBidders, DocumentsRecorded;
    AppendEvent(s.audit, e);
    CreationsKept(s, s');
    hide CreationsRecordedOnce;
  }

  /** Later events leave the record of the documents as it is. */
  lemma DocumentsKept(s: Store, id: string, e: AuditEvent, s': Store)
    requires DocumentsRecorded(s) && History(s.audit, id) != [] && e.submissionId == id
    requires s'.submissions.Keys == s.submissions.Keys && s'.audit == s.audit + [About(e)]
             && s'.documents == s.documents
    ensures DocumentsRecorded(s')
  {
    hide History;
    AppendEvent(s.audit, e);
    forall x ensures IngestedWith(s'.audit, x) == IngestedWith(s.audit, x) {
    }
  }

  lemma DocumentsAdded(s: Store, id: string, b: string, docs: seq<string>, s': Store)
    requires DocumentsRecorded(s) && History(s.audit, id) == [] && id !in s.submissions && Addable(docs, s.documents)
    requires s'.submissions.Keys == s.submissions.Keys + {id} && s'.audit == s.audit + [About(Ingested(id, b, docs))]
    requires s'.documents == s.documents + Tagged(docs, id)
    ensures DocumentsRecorded(s')
  {
    IngestionListed(s.audit, id, b, docs);
    AddedUnder(s.documents, docs, id);
    hide IngestedWith, History, Addable, Tagged;
    StillRecorded(s, id, docs, s');
  }

  lemma StillRecorded(s: Store, id: string, docs: seq<string>, s': Store)
    requires DocumentsRecorded(s) && id !in s.submissions && s'.submissions.Keys == s.submissions.Keys + {id}
    requires forall x :: IngestedWith(s'.audit, x) == if x == id then docs else IngestedWith(s.audit, x)
    requires forall d :: d in s'.documents <==> d in s.documents || d in docs
    requires forall d :: d in docs ==> d !in s.documents && s'.documents[d] == id
    requires forall d :: d in s.documents ==> s'.documents[d] == s.documents[d]
    ensures DocumentsRecorded(s')
  {
    hide IngestedWith;
    forall x, d | x in s'.submissions && d in IngestedWith(s'.audit, x)
      ensures d in s'.documents && s'.documents[d] == x
    {
      if x != id {
        assert d in s.documents;
      }
    }
    forall d | d in s'.documents
      ensures s'.documents[d] in s'.submissions && d in IngestedWith(s'.audit, s'.documents[d])
    {
      if d !in docs {
        assert s'.documents[d] == s.documents[d];
      }
    }
  }

  lemma AddedUnder(stored: map<string, string>, docs: seq<string>, id: string)
    requires Addable(docs, stored)
    ensures var after := stored + Tagged(docs, id);
            && after.Keys == stored.Keys + (set d | d in docs)
            && (forall d :: d in docs ==> d !in stored && after[d] == id)
            && (forall d :: d in stored ==> after[d] == stored[d])
  {
  }

  lemma IngestionListed(audit: seq<AuditRecord>, id: string, b: string, docs: seq<string>)
    requires History(audit, id) == []
    ensures var after := audit + [About(Ingested(id, b, docs))];
            forall x :: IngestedWith(after, x) == if x == id then docs else IngestedWith(audit, x)
  {
    var e := Ingested(id, b, docs);
    AppendEvent(audit, e);
    assert History(audit, id) + [e] == [e];
    hide History;
  }

  lemma DocumentsSame(s: Store, b: string, s': Store)
    requires DocumentsRecorded(s) && s'.submissions == s.submissions && s'.documents == s.documents
    requires s'.audit == s.audit + [BidderCreated(b)]
    ensures DocumentsRecorded(s')
  {
    hide History;
    AppendCreation(s.audit, b);
    forall x ensures IngestedWith(s'.audit, x) == IngestedWith(s.audit, x) {
    }
  }

  lemma CreationsKept(s: Store, s': Store)
    requires CreationsRecordedOnce(s) && CreatedBidders(s'.audit) == CreatedBidders(s.audit) && s.bidders <= s'.bidders
    ensures CreationsRecordedOnce(s')
  {
    hide CreatedBidders;
  }

  lemma StepConsistent(s: Store, op: Operation)
    requires Consistent(s)
    ensures Consistent(Step(s, op))
  {
    hide Explains, CanMove, Addable, DocumentsRecorded, Tagged;
    if Accepts(s, op) {
      match op
      case Register(b) =>
        AppendCreation(s.audit, b);
        if b !in s.bidders { DocumentsSame(s, b, Step(s, op)); }
      case Ingest(b, id, docs) =>
        var e := Ingested(id, b, docs);
        FreshExplained(id, b, docs);
        assert History(s.audit, id) + [e] == [e];
        DocumentsAdded(s, id, b, docs, Step(s, op));
        RowUpdated(s, id, Submission(b, INGESTED, None, 0, None), e, Step(s, op));
      case Advance(id, target) =>
        var e := Advanced(id, s.submissions[id].stage, target);
        ExplainedHistory(s, id);
        AppendExplains(History(s.audit, id), s.submissions[id], e);
        DocumentsKept(s, id, e, Step(s, op));
        RowUpdated(s, id, AdvancedRow(s.submissions[id], target), e, Step(s, op));
      case Fail(id, error, kind) =>
        var e := Failed(id, error, kind);
        ExplainedHistory(s, id);
        AppendExplains(History(s.audit, id), s.submissions[id], e);
        DocumentsKept(s, id, e, Step(s, op));
        RowUpdated(s, id, FailedRow(s.submissions[id], error, kind), e, Step(s, op));
    }
  }

  lemma ExplainedHistory(s: Store, id: string)
    requires Consistent(s) && id in s.submissions
    ensures History(s.audit, id) != []
  {
    hide History;
  }

  lemma FreshExplained(id: string, b: string, docs: seq<string>)
    ensures Explains([Ingested(id, b, docs)], Submission(b, INGESTED, None, 0, None))
  {
  }

  /** In every run, each submission row is recomputed exactly from its audit
      events, the outbox lists the ingestions in order, and no bidder is created twice. */
  lemma {:induction false} RowIsFoldOfAudit(s: Store, ops: seq<Operation>)
    requires Consistent(s)
    ensures Consistent(Run(s, ops))
    decreases |ops|
  {
    if ops != [] {
      StepConsistent(s, ops[0]);
      RowIsFoldOfAudit(Step(s, ops[0]), ops[1..]);
    }
  }

  lemma EveryRunFromEmpty(ops: seq<Operation>)
    ensures Consistent(Run(EMPTY_STORE, ops))
  {
    RowIsFoldOfAudit(EMPTY_STORE, ops);
  }

  /** The stages a history went through, without immediate repetitions. */
  function Visited(h: seq<AuditEvent>): seq<Stage> {
    if h == [] then []
    else
      var before, stage := Visited(h[..|h| - 1]), StageAfter(h[|h| - 1]);
      if before != [] && before[|before| - 1] == stage then before else before + [stage]
  }

  /** Without a failure no stage is skipped or revisited: the stages passed are
      the linear stages up to the current one, in order. */
  lemma {:induction false} LinearWithoutFailure(h: seq<AuditEvent>)
    requires WellLinked(h) && forall e :: e in h ==> StageAfter(e) != FAILED
    ensures Visited(h) == LINEAR_STAGES[..Index(StageAfter(h[|h| - 1])) + 1]
  {
    var g, e := h[..|h| - 1], h[|h| - 1];
    assert e in h;
    if g == [] {
      assert Visited(g) == [];
    } else {
      assert forall x :: x in g ==> x in h;
      assert g[|g| - 1] in h;
      LinearWithoutFailure(g);
      assert h[|h| - 2] == g[|g| - 1];
      LinearStep(Visited(g), StageAfter(g[|g| - 1]), e.to);
    }
  }

  lemma LinearStep(before: seq<Stage>, from: Stage, to: Stage)
    requires from != FAILED && to != FAILED && CanMove(from, to) && before == LINEAR_STAGES[..Index(from) + 1]
    ensures before != [] && before[|before| - 1] == from
    ensures to == from || before + [to] == LINEAR_STAGES[..Index(to) + 1]
  {
    var i := Index(from);
    if to != from {
      assert LINEAR_STAGES[..i + 2] == LINEAR_STAGES[..i + 1] + [LINEAR_STAGES[i + 1]];
    }
  }

  /** One operation takes a submission out of COMPLETE exactly if it fails it. */
  lemma CompleteStep(s: Store, op: Operation, id: string)
    requires id in s.submissions && s.submissions[id].stage == COMPLETE
    ensures id in Step(s, op).submissions
    ensures Step(s, op).submissions[id].stage == COMPLETE <==> !(op.Fail? && op.submissionId == id)
    ensures op.Fail? && op.submissionId == id ==> Step(s, op).submissions[id].stage == FAILED
  {
    hide Addable;
  }

  /** COMPLETE resists advancing, in whatever run, but any submission, complete or
      not, can be failed: it stays COMPLETE throughout a run exactly if no operation
      of the run fails it. */
  lemma {:induction false} CompleteAbsorbsAdvancesOnly(s: Store, ops: seq<Operation>, id: string)
    requires id in s.submissions && s.submissions[id].stage == COMPLETE
    ensures (forall k :: 0 <= k <= |ops| ==> StageIn(Run(s, ops[..k]), id) == Some(COMPLETE))
            <==> (forall i :: 0 <= i < |ops| ==> !(ops[i].Fail? && ops[i].submissionId == id))
    decreases |ops|
  {
    if ops == [] {
      assert ops[..0] == [];
    } else {
      var t, rest := Step(s, ops[0]), ops[1..];
      hide Step, StageIn;
      CompleteStep(s, ops[0], id);
      StageOf(s, id);
      StageOf(t, id);
      forall k | 0 < k <= |ops| ensures Run(s, ops[..k]) == Run(t, rest[..k - 1]) {
        assert ops[..k][0] == ops[0] && ops[..k][1..] == rest[..k - 1];
      }
      assert ops[..0] == [] && rest[..0] == [];
      if ops[0].Fail? && ops[0].submissionId == id {
        assert StageIn(Run(s, ops[..1]), id) != Some(COMPLETE);
      } else {
        CompleteAbsorbsAdvancesOnly(t, rest, id);
        SameThroughout(s, ops, t, id);
        assert forall i :: 0 < i < |ops| ==> ops[i] == rest[i - 1];
        assert forall i :: 0 <= i < |rest| ==> rest[i] == ops[i + 1];
      }
    }
  }

  function StageIn(s: Store, id: string): Option<Stage> {
    if id in s.submissions then Some(s.submissions[id].stage) else None
  }

  lemma StageOf(s: Store, id: string)
    requires id in s.submissions
    ensures StageIn(s, id) == Some(s.submissions[id].stage)
  {
  }

  lemma SameThroughout(s: Store, ops: seq<Operation>, t: Store, id: string)
    requires ops != [] && StageIn(s, id) == Some(COMPLETE)
    requires forall k :: 0 < k <= |ops| ==> Run(s, ops[..k]) == Run(t, ops[1..][..k - 1])
    ensures (forall k :: 0 <= k <= |ops| ==> StageIn(Run(s, ops[..k]), id) == Some(COMPLETE))
            <==> (forall k :: 0 <= k <= |ops[1..]| ==> StageIn(Run(t, ops[1..][..k]), id) == Some(COMPLETE))
  {
    hide Step, StageIn;
    var rest := ops[1..];
    assert ops[..0] == [];
    if forall k :: 0 <= k <= |ops| ==> StageIn(Run(s, ops[..k]), id) == Some(COMPLETE) {
      forall k | 0 <= k <= |rest| ensures StageIn(Run(t, rest[..k]), id) == Some(COMPLETE) {
        assert Run(s, ops[..k + 1]) == Run(t, rest[..(k + 1) - 1]);
      }
    }
    if forall k :: 0 <= k <= |rest| ==> StageIn(Run(t, rest[..k]), id) == Some(COMPLETE) {
      forall k | 0 <= k <= |ops| ensures StageIn(Run(s, ops[..k]), id) == Some(COMPLETE) {
        if k > 0 {
          assert Run(s, ops[..k]) == Run(t, rest[..k - 1]);
        }
      }
    }
  }
}
