/** The transactional outbox publisher (src/infrastructure/outbox.py). The sink's
    deliveries survive a crash; the publisher's own transaction does not. */
module Outbox {
  import opened Ordering

  datatype Event = Event(createdAt: int, publishedAt: Option<int>, attempts: nat)

  /** Committed events, and the ids the sink received, in order. */
  datatype Relay = Relay(events: map<string, Event>, delivered: seq<string>)

  function CreatedAt(events: map<string, Event>, id: string): int {
    if id in events then events[id].createdAt else 0
  }

  /** Oldest first, then by id. */
  predicate Older(events: map<string, Event>, a: string, b: string) {
    CreatedAt(events, a) < CreatedAt(events, b) || (CreatedAt(events, a) == CreatedAt(events, b) && StrLe(a, b))
  }

  function ByAge(events: map<string, Event>): (string, string) -> bool {
    (a: string, b: string) => Older(events, a, b)
  }

  function Unpublished(events: map<string, Event>): set<string> {
    set id | id in events && events[id].publishedAt.None?
  }

  function Published(events: map<string, Event>): set<string> {
    set id | id in events && events[id].publishedAt.Some?
  }

  function Pending(events: map<string, Event>): seq<string> {
    SortBy(SortedSet(Unpublished(events)), ByAge(events))
  }

  function Batch(events: map<string, Event>, limit: nat): seq<string> {
    var p := Pending(events);
    if |p| <= limit then p else p[..limit]
  }

  function RecordAttempt(e: Event): Event { e.(attempts := e.attempts + 1) }

  function MarkPublished(e: Event, now: int): Event {
    if e.publishedAt.Some? then e else e.(publishedAt := Some(now), attempts := e.attempts + 1)
  }

  /** Offering one event: the sink refuses it, or receives it and it is marked. */
  function Offer(r: Relay, id: string, refused: set<string>, now: int): Relay {
    if id !in r.events then r
    else if id in refused then r.(events := r.events[id := RecordAttempt(r.events[id])])
    else Relay(r.events[id := MarkPublished(r.events[id], now)], r.delivered + [id])
  }

  function OfferAll(r: Relay, ids: seq<string>, refused: set<string>, now: int): Relay {
    if ids == [] then r
    else Offer(OfferAll(r, ids[..|ids| - 1], refused, now), ids[|ids| - 1], refused, now)
  }

  /** One call; if it crashes after offering some events, its marks are rolled
      back while the deliveries remain. */
  function Publish(r: Relay, limit: nat, refused: set<string>, now: int, crashAfter: Option<nat>): Relay {
    var batch := Batch(r.events, limit);
    if crashAfter.Some? && crashAfter.value <= |batch|
    then Relay(r.events, OfferAll(r, batch[..crashAfter.value], refused, now).delivered)
    else OfferAll(r, batch, refused, now)
  }

  class OutboxPublisher {
    var events: map<string, Event>
    var delivered: seq<string>

    function View(): Relay
      reads this
    {
      Relay(events, delivered)
    }

    constructor (events: map<string, Event>)
      ensures View() == Relay(events, [])
    {
      this.events := events;
      delivered := [];
    }

    /** Relays up to `limit` events and returns how many it newly marked. */
    method PublishPending(limit: nat, refused: set<string>, now: int, crashAfter: Option<nat>) returns (published: nat)
      modifies this
      ensures View() == Publish(old(View()), limit, refused, now, crashAfter)
      ensures |Published(events)| == |Published(old(events))| + published
      ensures crashAfter.None? ==> events.Keys == old(events).Keys && forall id :: id in events ==>
                events[id] == AfterCall(old(events), limit, refused, now, id)
      ensures crashAfter.None? ==> delivered == old(delivered) + Accepted(Batch(old(events), limit), refused)
    {
      if crashAfter.None? {
        CallEffects(View(), limit, refused, now);
      }
      hide AfterCall, Accepted, Batch;
      hide SortBy, ByAge, Older, SortedSet, Unpublished, Published, MarkPublished;
      var before := events;
      var batch := Batch(events, limit);
      published := 0;
      for i := 0 to |batch|
        invariant View() == OfferAll(old(View()), batch[..i], refused, now)
        invariant |Published(events)| == |Published(before)| + published
        invariant crashAfter.Some? ==> i <= crashAfter.value
      {
        if crashAfter == Some(i) {
          events := before;
          return 0;
        }
        var id := batch[i];
        assert batch[..i + 1][..i] == batch[..i];
        OfferCounts(View(), id, refused, now);
        if id in events {
          if id in refused {
            events := events[id := RecordAttempt(events[id])];
          } else {
            delivered := delivered + [id];
            if events[id].publishedAt.None? {
              published := published + 1;
            }
            events := events[id := MarkPublished(events[id], now)];
          }
        }
      }
      assert batch[..|batch|] == batch;
      if crashAfter == Some(|batch|) {
        events := before;
        return 0;
      }
    }
  }

  lemma OfferCounts(r: Relay, id: string, refused: set<string>, now: int)
    ensures |Published(Offer(r, id, refused, now).events)| ==
            |Published(r.events)| + if id in r.events && id !in refused && r.events[id].publishedAt.None? then 1 else 0
  {
    var e := Offer(r, id, refused, now).events;
    if id in r.events && id !in refused && r.events[id].publishedAt.None? {
      assert Published(e) == Published(r.events) + {id};
    } else {
      assert Published(e) == Published(r.events);
    }
  }

  // ----- runs -----

  /** The event after a completed call: one of the batch has one attempt more, and is
      marked unless refused; any other is as it was. */
  ghost function AfterCall(events: map<string, Event>, limit: nat, refused: set<string>, now: int, id: string): Event
    requires id in events
  {
    var e := events[id];
    if id !in Batch(events, limit) then e
    else Event(e.createdAt, if id in refused then e.publishedAt else Some(now), e.attempts + 1)
  }

  /** The ids the sink accepts, in order. */
  ghost function Accepted(ids: seq<string>, refused: set<string>): seq<string> {
    if ids == [] then []
    else (if ids[0] in refused then [] else [ids[0]]) + Accepted(ids[1..], refused)
  }

  lemma {:induction false} AcceptedSnoc(ids: seq<string>, id: string, refused: set<string>)
    ensures Accepted(ids + [id], refused) ==
            if id in refused then Accepted(ids, refused) else Accepted(ids, refused) + [id]
  {
    if ids == [] {
      assert ids + [id] == [id];
    } else {
      assert (ids + [id])[1..] == ids[1..] + [id];
      AcceptedSnoc(ids[1..], id, refused);
    }
  }

  /** Offering distinct unmarked events touches each once. */
  lemma {:induction false} OfferEffects(r: Relay, ids: seq<string>, refused: set<string>, now: int)
    requires forall i, j :: 0 <= i < j < |ids| ==> ids[i] != ids[j]
    requires forall x :: x in ids ==> x in r.events && r.events[x].publishedAt.None?
    ensures var q := OfferAll(r, ids, refused, now);
            && q.events.Keys == r.events.Keys && q.delivered == r.delivered + Accepted(ids, refused)
            && forall id :: id in r.events ==>
                 q.events[id] ==
                 if id !in ids then r.events[id]
                 else Event(r.events[id].createdAt, if id in refused then r.events[id].publishedAt else Some(now),
                            r.events[id].attempts + 1)
  {
    if ids != [] {
      var init, last := ids[..|ids| - 1], ids[|ids| - 1];
      assert ids == init + [last];
      OfferEffects(r, init, refused, now);
      AcceptedSnoc(init, last, refused);
      assert last !in init;
      hide Accepted;
    }
  }

  lemma CallEffects(r: Relay, limit: nat, refused: set<string>, now: int)
    ensures var q := Publish(r, limit, refused, now, None);
            && q.events.Keys == r.events.Keys
            && (forall id :: id in r.events ==> q.events[id] == AfterCall(r.events, limit, refused, now, id))
            && q.delivered == r.delivered + Accepted(Batch(r.events, limit), refused)
  {
    hide Batch, OfferAll, Accepted;
    BatchFresh(r.events, limit);
    OfferEffects(r, Batch(r.events, limit), refused, now);
  }

  /** A batch holds distinct stored events without a mark. */
  lemma BatchFresh(events: map<string, Event>, limit: nat)
    ensures forall x :: x in Batch(events, limit) ==> x in events && events[x].publishedAt.None?
    ensures forall i, j :: 0 <= i < j < |Batch(events, limit)| ==> Batch(events, limit)[i] != Batch(events, limit)[j]
  {
    PendingIs(events);
    hide Pending, Older;
    forall x | x in Batch(events, limit) ensures x in events && events[x].publishedAt.None? {
      assert x in Pending(events);
    }
  }

  datatype Action =
    | Commit(id: string, createdAt: int)
    | PublishCall(limit: nat, refused: set<string>, now: int, crashAfter: Option<nat>)

  function Act(r: Relay, a: Action): Relay {
    match a
    case Commit(id, createdAt) =>
      if id in r.events then r else r.(events := r.events[id := Event(createdAt, None, 0)])
    case PublishCall(limit, refused, now, crash) => Publish(r, limit, refused, now, crash)
  }

  function RunAll(r: Relay, actions: seq<Action>): Relay
    decreases |actions|
  {
    if actions == [] then r else RunAll(Act(r, actions[0]), actions[1..])
  }

  /** A commit adds the event, unmarked and never attempted, unless its id is stored. */
  lemma CommitAdds(r: Relay, id: string, createdAt: int)
    ensures var q := Act(r, Commit(id, createdAt));
            && q.delivered == r.delivered
            && (id in r.events ==> q == r)
            && (id !in r.events ==> q.events == r.events[id := Event(createdAt, None, 0)])
  {
  }

  /** Nothing is lost or forgotten: events persist with their creation time, a mark
      never changes once set, and the delivery log only grows. */
  ghost predicate Grows(r: Relay, q: Relay) {
    && (forall id :: id in r.events ==> id in q.events && q.events[id].createdAt == r.events[id].createdAt)
    && (forall id :: id in r.events && r.events[id].publishedAt.Some? ==>
        q.events[id].publishedAt == r.events[id].publishedAt)
    && r.delivered <= q.delivered
  }

  /** Every mark has a delivery behind it, and every delivery a committed event. */
  ghost predicate Sound(r: Relay) {
    && (forall id :: id in r.events && r.events[id].publishedAt.Some? ==> id in r.delivered)
    && (forall id :: id in r.delivered ==> id in r.events)
  }

  lemma {:induction false} OfferAllGrows(r: Relay, ids: seq<string>, refused: set<string>, now: int)
    requires Sound(r)
    ensures Sound(OfferAll(r, ids, refused, now)) && Grows(r, OfferAll(r, ids, refused, now))
    ensures OfferAll(r, ids, refused, now).events.Keys == r.events.Keys
  {
    if ids != [] {
      OfferAllGrows(r, ids[..|ids| - 1], refused, now);
      var q, id := OfferAll(r, ids[..|ids| - 1], refused, now), ids[|ids| - 1];
      OfferGrows(q, id, refused, now);
      GrowsTransitive(r, q, Offer(q, id, refused, now));
    }
  }

  lemma OfferGrows(r: Relay, id: string, refused: set<string>, now: int)
    requires Sound(r)
    ensures Sound(Offer(r, id, refused, now)) && Grows(r, Offer(r, id, refused, now))
    ensures Offer(r, id, refused, now).events.Keys == r.events.Keys
  {
    var q := Offer(r, id, refused, now);
    assert forall x :: x in r.delivered ==> x in r.delivered + [id];
  }

  lemma GrowsTransitive(r: Relay, q: Relay, p: Relay)
    requires Grows(r, q) && Grows(q, p)
    ensures Grows(r, p)
  {
  }

  lemma ActGrows(r: Relay, a: Action)
    requires Sound(r)
    ensures Sound(Act(r, a)) && Grows(r, Act(r, a))
  {
    if a.PublishCall? {
      hide Offer, OfferAll, Pending;
      var batch := Batch(r.events, a.limit);
      OfferAllGrows(r, batch, a.refused, a.now);
      if a.crashAfter.Some? && a.crashAfter.value <= |batch| {
        OfferAllGrows(r, batch[..a.crashAfter.value], a.refused, a.now);
        DeliveriesKept(r, OfferAll(r, batch[..a.crashAfter.value], a.refused, a.now));
      }
    }
  }

  lemma DeliveriesKept(r: Relay, q: Relay)
    requires Sound(r) && Sound(q) && Grows(r, q) && q.events.Keys == r.events.Keys
    ensures Sound(Relay(r.events, q.delivered)) && Grows(r, Relay(r.events, q.delivered))
  {
  }

  /** Over every run of commits, calls, refusals and crashes no event is lost, marks
      are set at most once and only after a delivery. */
  lemma {:induction false} AtLeastOnce(r: Relay, actions: seq<Action>)
    requires Sound(r)
    ensures Sound(RunAll(r, actions)) && Grows(r, RunAll(r, actions))
    decreases |actions|
  {
    if actions != [] {
      var q := Act(r, actions[0]);
      ActGrows(r, actions[0]);
      AtLeastOnce(q, actions[1..]);
      GrowsTransitive(r, q, RunAll(q, actions[1..]));
    }
  }

  /** A consumer that ignores ids it has already applied. */
  function Consume(log: seq<string>): seq<string> {
    if log == [] then []
    else
      var applied, id := Consume(log[..|log| - 1]), log[|log| - 1];
      if id in applied then applied else applied + [id]
  }

  lemma {:induction false} ConsumeOnce(log: seq<string>)
    ensures forall x :: x in Consume(log) <==> x in log
    ensures forall i, j :: 0 <= i < j < |Consume(log)| ==> Consume(log)[i] != Consume(log)[j]
  {
    if log != [] {
      var init, id := log[..|log| - 1], log[|log| - 1];
      assert log == init + [id];
      ConsumeOnce(init);
    }
  }

  /** Every published event is applied exactly once by an idempotent consumer. */
  lemma PublishedAppliedOnce(r: Relay, actions: seq<Action>, id: string)
    requires Sound(r) && id in RunAll(r, actions).events && RunAll(r, actions).events[id].publishedAt.Some?
    ensures multiset(Consume(RunAll(r, actions).delivered))[id] == 1
  {
    var log := RunAll(r, actions).delivered;
    AtLeastOnce(r, actions);
    ConsumeOnce(log);
    DistinctCount(Consume(log), id);
  }

  // ----- progress and blocking -----

  lemma AgeOrder(events: map<string, Event>)
    ensures TotalPreorder(ByAge(events))
  {
    forall a: string, b: string ensures ByAge(events)(a, b) || ByAge(events)(b, a) {
      StrLeTotal(a, b);
    }
    forall a: string, b: string, c: string | ByAge(events)(a, b) && ByAge(events)(b, c) ensures ByAge(events)(a, c) {
      if StrLe(a, b) && StrLe(b, c) {
        StrLeTransitive(a, b, c);
      }
    }
  }

  lemma PendingIs(events: map<string, Event>)
    ensures forall id :: id in Pending(events) <==> id in Unpublished(events)
    ensures forall i, j :: 0 <= i < j < |Pending(events)| ==>
              Older(events, Pending(events)[i], Pending(events)[j]) && Pending(events)[i] != Pending(events)[j]
  {
    var s, p := SortedSet(Unpublished(events)), Pending(events);
    AgeOrder(events);
    SortKeeps(s, ByAge(events));
    InMultiset(p, s);
    forall i, j | 0 <= i < j < |p| ensures Older(events, p[i], p[j]) && p[i] != p[j] {
      assert ByAge(events)(p[i], p[j]);
      DistinctKept(s, p, i, j);
    }
  }

  lemma DistinctKept(s: seq<string>, p: seq<string>, i: nat, j: nat)
    requires multiset(p) == multiset(s) && i < j < |p|
    requires forall i, j :: 0 <= i < j < |s| ==> s[i] != s[j]
    ensures p[i] != p[j]
  {
    DistinctCount(s, p[i]);
    var l, m, r := p[..i], p[i + 1..j], p[j + 1..];
    assert p == l + ([p[i]] + (m + ([p[j]] + r)));
    assert multiset(p) == multiset(l) + (multiset{p[i]} + (multiset(m) + (multiset{p[j]} + multiset(r))));
  }

  lemma {:induction false} OfferedOnce(r: Relay, ids: seq<string>, refused: set<string>, now: int, id: string)
    requires forall x :: x in ids ==> x in r.events
    ensures OfferAll(r, ids, refused, now).events.Keys == r.events.Keys
    ensures id in r.events && r.events[id].publishedAt.None? ==>
              (OfferAll(r, ids, refused, now).events[id].publishedAt.Some? <==> id in ids && id !in refused)
    ensures id !in ids || id in refused ==>
              (id in OfferAll(r, ids, refused, now).delivered <==> id in r.delivered)
  {
    if ids != [] {
      var init := ids[..|ids| - 1];
      assert ids == init + [ids[|ids| - 1]];
      OfferedOnce(r, init, refused, now, id);
    }
  }

  /** A pending event among the `limit` oldest is published by the next completed
      call exactly when the sink accepts it; any other is left alone. */
  lemma NextCallPublishes(r: Relay, limit: nat, refused: set<string>, now: int, id: string)
    requires id in Unpublished(r.events)
    ensures id in Publish(r, limit, refused, now, None).events
    ensures Publish(r, limit, refused, now, None).events[id].publishedAt.Some?
            <==> id in Batch(r.events, limit) && id !in refused
  {
    PendingIs(r.events);
    forall x | x in Batch(r.events, limit) ensures x in r.events {
      assert x in Pending(r.events);
    }
    hide Pending, Offer, Older;
    OfferedOnce(r, Batch(r.events, limit), refused, now, id);
  }

  /** `blockers` are pending, at least `limit` many, and each strictly older than `id`. */
  ghost predicate Blocked(r: Relay, blockers: set<string>, limit: nat, id: string) {
    && id in Unpublished(r.events) && id !in blockers && |blockers| >= limit
    && (forall b :: b in blockers ==> b in Unpublished(r.events) && !Older(r.events, id, b))
  }

  lemma {:induction false} PrefixSize(s: seq<string>)
    ensures |set x | x in s| <= |s|
  {
    if s != [] {
      PrefixSize(s[1..]);
      assert (set x | x in s) == {s[0]} + set x | x in s[1..];
    }
  }

  lemma BlockedNotOffered(r: Relay, blockers: set<string>, limit: nat, id: string)
    requires Blocked(r, blockers, limit, id)
    ensures id !in Batch(r.events, limit)
  {
    hide Pending, Older, Unpublished;
    var p := Pending(r.events);
    PendingIs(r.events);
    if id in Batch(r.events, limit) {
      assert id in p;
      var k :| 0 <= k < |p| && k < limit && p[k] == id;
      var front := set x | x in p[..k];
      PrefixSize(p[..k]);
      forall b | b in blockers ensures b in front {
        assert b in p;
        var j :| 0 <= j < |p| && p[j] == b;
        assert j < k;
      }
      SubsetSize(blockers, front);
    }
  }

  lemma SubsetSize(a: set<string>, b: set<string>)
    requires a <= b
    ensures |a| <= |b|
  {
    assert b == a + (b - a);
  }

  /** Every call of the run uses this limit and finds the sink refusing all blockers. */
  ghost predicate KeepsRefusing(actions: seq<Action>, blockers: set<string>, limit: nat) {
    forall i :: 0 <= i < |actions| && actions[i].PublishCall? ==>
        actions[i].limit == limit && blockers <= actions[i].refused
  }

  lemma BlockedStep(r: Relay, a: Action, blockers: set<string>, limit: nat, id: string)
    requires Blocked(r, blockers, limit, id) && id !in r.delivered
    requires a.PublishCall? ==> a.limit == limit && blockers <= a.refused
    ensures Blocked(Act(r, a), blockers, limit, id) && id !in Act(r, a).delivered
  {
    if a.PublishCall? {
      BlockedNotOffered(r, blockers, limit, id);
      PendingIs(r.events);
      var batch := Batch(r.events, limit);
      forall x | x in batch ensures x in r.events { assert x in Pending(r.events); }
      var offered := if a.crashAfter.Some? && a.crashAfter.value <= |batch| then batch[..a.crashAfter.value] else batch;
      BlockedOffer(r, offered, a.refused, a.now, blockers, limit, id);
    }
  }

  lemma BlockedOffer(r: Relay, ids: seq<string>, refused: set<string>, now: int, blockers: set<string>, limit: nat,
                     id: string)
    requires Blocked(r, blockers, limit, id) && id !in r.delivered && id !in ids && blockers <= refused
    requires forall x :: x in ids ==> x in r.events
    ensures var q := OfferAll(r, ids, refused, now); Blocked(q, blockers, limit, id) && id !in q.delivered
  {
    var q := OfferAll(r, ids, refused, now);
    OfferedOnce(r, ids, refused, now, id);
    AgesKept(r, ids, refused, now);
    hide OfferAll;
    forall b | b in blockers ensures b in Unpublished(q.events) && !Older(q.events, id, b) {
      OfferedOnce(r, ids, refused, now, b);
    }
  }

  lemma {:induction false} AgesKept(r: Relay, ids: seq<string>, refused: set<string>, now: int)
    ensures forall x :: CreatedAt(OfferAll(r, ids, refused, now).events, x) == CreatedAt(r.events, x)
  {
    if ids != [] {
      AgesKept(r, ids[..|ids| - 1], refused, now);
    }
  }

  /** Head-of-line blocking: while the sink keeps refusing `limit` older events, a
      younger event is never delivered, however many calls are made. */
  lemma {:induction false} RefusedEventsBlockYounger(r: Relay, actions: seq<Action>, blockers: set<string>, limit: nat,
                                                     id: string)
    requires Blocked(r, blockers, limit, id) && id !in r.delivered && KeepsRefusing(actions, blockers, limit)
    ensures id !in RunAll(r, actions).delivered
    decreases |actions|
  {
    if actions != [] {
      BlockedStep(r, actions[0], blockers, limit, id);
      assert KeepsRefusing(actions[1..], blockers, limit);
      RefusedEventsBlockYounger(Act(r, actions[0]), actions[1..], blockers, limit, id);
    }
  }

  // ----- conditional delivery -----

  /** The pending events that are offered before `id`. */
  function Ahead(events: map<string, Event>, id: string): set<string> {
    set b | b in Unpublished(events) && b != id && Older(events, b, id)
  }

  function Completed(actions: seq<Action>): nat
    decreases |actions|
  {
    if actions == [] then 0
    else (if actions[0].PublishCall? && actions[0].crashAfter.None? then 1 else 0) + Completed(actions[1..])
  }

  /** Completed calls are those that do not crash; each counts. */
  lemma {:induction false} CompletedConcat(a: seq<Action>, b: seq<Action>)
    ensures Completed(a + b) == Completed(a) + Completed(b)
    ensures forall x: Action :: Completed([x]) == if x.PublishCall? && x.crashAfter.None? then 1 else 0
    decreases |a|
  {
    if a == [] {
      assert a + b == b;
    } else {
      assert (a + b)[1..] == a[1..] + b;
      CompletedConcat(a[1..], b);
    }
  }

  /** An action that delays `id` by none but the events `stuck`: a commit of an event
      not older than `id`, or a call with a limit above the number of `stuck` ones to
      a sink that accepts `id` and all of `ahead` but `stuck`. */
  ghost predicate Favours(a: Action, createdAt: int, id: string, ahead: set<string>, stuck: set<string>) {
    match a
    case Commit(c, at) => createdAt < at || (createdAt == at && StrLe(id, c))
    case PublishCall(limit, refused, _, _) => id !in refused && |stuck| < limit && refused * ahead <= stuck
  }

  lemma {:induction false} ElementsOfDistinct(s: seq<string>)
    requires forall i, j :: 0 <= i < j < |s| ==> s[i] != s[j]
    ensures |set x | x in s| == |s|
  {
    if s != [] {
      ElementsOfDistinct(s[1..]);
      assert (set x | x in s) == {s[0]} + set x | x in s[1..];
      assert s[0] !in s[1..];
    }
  }

  /** A batch without a pending `id` is full and holds only events ahead of it. */
  lemma BatchAhead(events: map<string, Event>, limit: nat, id: string)
    requires id in Unpublished(events) && id !in Batch(events, limit)
    ensures |Batch(events, limit)| == limit
    ensures forall x :: x in Batch(events, limit) ==> x in Ahead(events, id)
    ensures forall i, j :: 0 <= i < j < limit ==> Batch(events, limit)[i] != Batch(events, limit)[j]
  {
    var p, batch := Pending(events), Batch(events, limit);
    PendingIs(events);
    hide Pending, Older, Unpublished;
    assert id in p;
    var k :| 0 <= k < |p| && p[k] == id;
    assert forall j :: 0 <= j < |batch| ==> p[j] == batch[j] && batch[j] in batch;
    forall x | x in batch ensures x in Ahead(events, id) {
      var i :| 0 <= i < limit && p[i] == x;
      assert x in p && Older(events, p[i], p[k]) && p[i] != p[k];
    }
  }

  /** So some event of the batch is not stuck. */
  lemma SomeoneMoves(events: map<string, Event>, limit: nat, id: string, stuck: set<string>) returns (x: string)
    requires id in Unpublished(events) && id !in Batch(events, limit) && |stuck| < limit
    ensures x in Batch(events, limit) && x in Ahead(events, id) && x !in stuck
  {
    hide Batch, Ahead;
    var batch := Batch(events, limit);
    BatchAhead(events, limit, id);
    ElementsOfDistinct(batch);
    var front := set b | b in batch;
    if front <= stuck {
      SubsetSize(front, stuck);
    }
    x :| x in front && x !in stuck;
  }

  /** Offering events puts none ahead of `id`. */
  lemma AheadShrinks(r: Relay, ids: seq<string>, refused: set<string>, now: int, id: string)
    requires Sound(r)
    ensures Ahead(OfferAll(r, ids, refused, now).events, id) <= Ahead(r.events, id)
  {
    OfferAllGrows(r, ids, refused, now);
    AgesKept(r, ids, refused, now);
    var q := OfferAll(r, ids, refused, now);
    hide OfferAll;
    forall b | b in Ahead(q.events, id) ensures b in Ahead(r.events, id) {
      assert b in r.events && r.events[b].publishedAt.None?;
    }
  }

  /** A completed call publishes `id` or takes an event out of its way. */
  lemma CallProgresses(r: Relay, limit: nat, refused: set<string>, now: int, id: string, stuck: set<string>)
    requires Sound(r) && id in Unpublished(r.events) && id !in refused && |stuck| < limit
    requires refused * Ahead(r.events, id) <= stuck
    ensures var q := Publish(r, limit, refused, now, None);
            id in q.events && (q.events[id].publishedAt.Some? ||
                               |Ahead(q.events, id) - stuck| < |Ahead(r.events, id) - stuck|)
  {
    var q := Publish(r, limit, refused, now, None);
    hide Batch, OfferAll, Ahead, Sound;
    NextCallPublishes(r, limit, refused, now, id);
    if q.events[id].publishedAt.None? {
      var x := SomeoneMoves(r.events, limit, id, stuck);
      AheadPending(r.events, id, x);
      NextCallPublishes(r, limit, refused, now, x);
      AheadShrinks(r, Batch(r.events, limit), refused, now, id);
      if x in Ahead(q.events, id) { AheadPending(q.events, id, x); }
      Fewer(Ahead(q.events, id) - stuck, Ahead(r.events, id) - stuck, x);
    }
  }

  lemma AheadPending(events: map<string, Event>, id: string, x: string)
    requires x in Ahead(events, id)
    ensures x in Unpublished(events)
  {
  }

  lemma Fewer(a: set<string>, b: set<string>, x: string)
    requires a <= b && x in b && x !in a
    ensures |a| < |b|
  {
    SubsetSize(a, b - {x});
  }

  /** A favourable action keeps a pending `id` at its age with nothing new ahead of it. */
  lemma FavourableStep(r: Relay, a: Action, id: string, ahead: set<string>, stuck: set<string>)
    requires Sound(r) && id in Unpublished(r.events) && Ahead(r.events, id) <= ahead
    requires Favours(a, r.events[id].createdAt, id, ahead, stuck)
    ensures var q := Act(r, a);
            && Sound(q) && id in q.events && q.events[id].createdAt == r.events[id].createdAt
            && Ahead(q.events, id) <= Ahead(r.events, id)
  {
    ActGrows(r, a);
    match a
    case Commit(c, at) => CommitAhead(r, c, at, id);
    case PublishCall(limit, refused, now, crash) =>
      AheadShrinks(r, Batch(r.events, limit), refused, now, id);
  }

  lemma CommitAhead(r: Relay, c: string, at: int, id: string)
    requires id in Unpublished(r.events)
    requires r.events[id].createdAt < at || (r.events[id].createdAt == at && StrLe(id, c))
    ensures Ahead(Act(r, Commit(c, at)).events, id) <= Ahead(r.events, id)
  {
    if c !in r.events {
      var q := Act(r, Commit(c, at));
      forall b | b in Ahead(q.events, id) ensures b in Ahead(r.events, id) {
        if b == c {
          if StrLe(id, c) && StrLe(c, id) { StrLeAntisymmetric(id, c); }
        }
      }
    }
  }

  /** Conditional delivery: if the sink refuses for good fewer events ahead of `id` than
      a call takes, and accepts the others and `id`, then `id` is published once more
      calls have completed than there are other events ahead of it. */
  lemma {:induction false} EventuallyPublished(r: Relay, actions: seq<Action>, id: string, ahead: set<string>,
                                               stuck: set<string>)
    requires Sound(r) && id in Unpublished(r.events) && Ahead(r.events, id) <= ahead
    requires forall i :: 0 <= i < |actions| ==> Favours(actions[i], r.events[id].createdAt, id, ahead, stuck)
    requires Completed(actions) > |Ahead(r.events, id) - stuck|
    ensures id in RunAll(r, actions).events && RunAll(r, actions).events[id].publishedAt.Some?
    decreases |actions|
  {
    var a, q := actions[0], Act(r, actions[0]);
    hide Ahead, Sound, Act;
    FavourableStep(r, a, id, ahead, stuck);
    if q.events[id].publishedAt.Some? {
      StaysPublished(q, actions[1..], id);
    } else {
      StepProgress(r, a, id, ahead, stuck);
      EventuallyPublished(q, actions[1..], id, ahead, stuck);
    }
  }

  lemma StepProgress(r: Relay, a: Action, id: string, ahead: set<string>, stuck: set<string>)
    requires Sound(r) && id in Unpublished(r.events) && Ahead(r.events, id) <= ahead
    requires Favours(a, r.events[id].createdAt, id, ahead, stuck)
    requires id in Act(r, a).events && Act(r, a).events[id].publishedAt.None?
    ensures |Ahead(Act(r, a).events, id) - stuck| + Completed([a]) <= |Ahead(r.events, id) - stuck|
  {
    var q := Act(r, a);
    FavourableStep(r, a, id, ahead, stuck);
    hide Ahead, Sound;
    SubsetSize(Ahead(q.events, id) - stuck, Ahead(r.events, id) - stuck);
    if a.PublishCall? && a.crashAfter.None? {
      CallProgresses(r, a.limit, a.refused, a.now, id, stuck);
    }
  }

  lemma StaysPublished(r: Relay, actions: seq<Action>, id: string)
    requires Sound(r) && id in r.events && r.events[id].publishedAt.Some?
    ensures id in RunAll(r, actions).events && RunAll(r, actions).events[id].publishedAt.Some?
  {
    AtLeastOnce(r, actions);
  }
}
