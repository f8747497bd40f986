// The transactional outbox as its services see it: each method is one
// transaction over the event and attempt tables.
module OutboxServices {
  import opened Wrappers
  import opened Sums
  import opened EventTypes
  import opened Sequences
  import opened OutboxRows

  datatype Counts = Counts(claimed: nat, processed: nat, retry: nat, failed: nat, skipped: nat)

  function Count(c: Counts, d: Delivery): Counts {
    match d
    case Processed => c.(processed := c.processed + 1)
    case Retry => c.(retry := c.retry + 1)
    case Failed => c.(failed := c.failed + 1)
    case Skipped => c.(skipped := c.skipped + 1)
  }

  // ---- work left in the table ----

  // No row is leased and every open row has an attempt left: the state between
  // batches when no lease was abandoned.
  ghost predicate Settled(cfg: Config, t: Table) {
    forall id :: id in t.events && t.events[id].Open() ==>
      t.events[id].lockedAt.None? && t.events[id].attemptCount < Limit(cfg)
  }

  function WorkOf(cfg: Config, e: Event): int {
    if e.Open() then Limit(cfg) - e.attemptCount else 0
  }

  ghost function WorkByEvent(cfg: Config, t: Table): map<EventId, int> {
    map id | id in t.events :: WorkOf(cfg, t.events[id])
  }

  ghost function Work(cfg: Config, t: Table): int {
    Total(WorkByEvent(cfg, t))
  }

  // When the work of no row grows and each row of ids loses some, the total
  // loses at least one per row of ids.
  lemma {:induction false} WorkDrops(m: map<EventId, int>, n: map<EventId, int>, ids: seq<EventId>)
    requires m.Keys == n.Keys && Distinct(ids)
    requires forall id :: id in m ==> n[id] <= m[id]
    requires forall id :: id in ids ==> id in m && n[id] < m[id]
    ensures Total(n) + |ids| <= Total(m)
  {
    if ids == [] {
      TotalMonotone(n, m);
    } else {
      var last, init := ids[|ids| - 1], ids[..|ids| - 1];
      assert ids == init + [last] && last !in init;
      var m' := m[last := n[last]];
      TotalUpdate(m, last, n[last]);
      WorkDrops(m', n, init);
    }
  }

  // The row a delivery that passed its check leaves behind at time done.
  function AttemptedRow(cfg: Config, e: Event, outcome: Option<string>, done: Time): Event {
    match HandlerOutcome(e.eventType, outcome)
    case None => ProcessedRow(e, done)
    case Some(errorType) => FailedRow(cfg, e, errorType, done)
  }

  function DeliveredRow(
    cfg: Config, e: Event, worker: WorkerId, now: Time, outcome: Option<string>, done: Time): Event
  {
    AttemptedRow(cfg, ClaimedRow(e, worker, now), outcome, done)
  }

  function OpenIds(t: Table): set<EventId> {
    set id | id in t.events && t.events[id].Open()
  }

  // One delivery whose three steps run without interference.
  function DeliverOne(cfg: Config, t: Table, id: EventId, worker: WorkerId, outcome: Option<string>,
    done: Time): (Table, Delivery)
    requires Numbered(t) && id in t.events && (t.events[id].lockedBy == worker ==> t.events[id].attemptCount >= 1)
  {
    if CheckDelivery(t, id, worker) != Proceed then (t, Skipped)
    else
      FinalisingKeepsNumbering(cfg, t, id, "", done);
      match HandlerOutcome(t.events[id].eventType, outcome)
      case None => (CompleteDelivery(t, id, done).value, Processed)
      case Some(errorType) =>
        (FailDelivery(cfg, t, id, errorType, done).value, FailedOutcome(cfg, t.events[id]))
  }

  // The rows of ids are leased to worker and not yet closed.
  ghost predicate Leased(t: Table, ids: seq<EventId>, worker: WorkerId) {
    && Distinct(ids)
    && forall id :: id in ids ==>
      id in t.events && t.events[id].Open() && t.events[id].lockedBy == worker && t.events[id].attemptCount >= 1
  }

  lemma DeliverOneRows(cfg: Config, t: Table, id: EventId, worker: WorkerId, outcome: Option<string>, done: Time)
    requires Consistent(t) && Leased(t, [id], worker)
    ensures var (u, d) := DeliverOne(cfg, t, id, worker, outcome, done);
      && Consistent(u) && d != Skipped
      && u.events == t.events[id := AttemptedRow(cfg, t.events[id], outcome, done)]
  {
    hide Consistent, FailedRow, ProcessedRow;
    assert id in [id];
    var outcome' := HandlerOutcome(t.events[id].eventType, outcome);
    FinalisingKeepsConsistent(cfg, t, id, if outcome'.Some? then outcome'.value else "", done);
  }

  // u is t after the first n events of ids have been delivered.
  ghost predicate DeliveredRows(
    cfg: Config, t: Table, u: Table, ids: seq<EventId>, n: nat,
    handler: (EventId, nat) -> Option<string>, clock: nat -> Time)
  {
    && n <= |ids| && t.events.Keys == u.events.Keys
    && (forall i :: 0 <= i < |ids| && ids[i] in t.events ==>
          u.events[ids[i]] ==
          if i < n then AttemptedRow(cfg, t.events[ids[i]], handler(ids[i], t.events[ids[i]].attemptCount), clock(i))
          else t.events[ids[i]])
    && (forall id :: id in t.events && id !in ids ==> u.events[id] == t.events[id])
  }

  lemma NoneDelivered(
    cfg: Config, t: Table, ids: seq<EventId>, handler: (EventId, nat) -> Option<string>, clock: nat -> Time)
    ensures DeliveredRows(cfg, t, t, ids, 0, handler, clock)
  {
  }

  // The event that is next in a leased batch is still leased.
  lemma NextLeased(
    cfg: Config, t: Table, u: Table, ids: seq<EventId>, i: nat, worker: WorkerId,
    handler: (EventId, nat) -> Option<string>, clock: nat -> Time)
    requires i < |ids| && Leased(t, ids, worker) && DeliveredRows(cfg, t, u, ids, i, handler, clock)
    ensures Distinct(ids) && ids[i] in t.events && ids[i] in u.events && Leased(u, [ids[i]], worker)
    ensures u.events[ids[i]].attemptCount >= 1
  {
    hide AttemptedRow;
    assert ids[i] in ids;
  }

  lemma DeliveredRowsStep(
    cfg: Config, t: Table, u: Table, ids: seq<EventId>, n: nat,
    handler: (EventId, nat) -> Option<string>, clock: nat -> Time)
    requires n < |ids| && Distinct(ids) && ids[n] in t.events && DeliveredRows(cfg, t, u, ids, n, handler, clock)
    ensures forall v: Table ::
      v.events == u.events[ids[n] :=
        AttemptedRow(cfg, u.events[ids[n]], handler(ids[n], u.events[ids[n]].attemptCount), clock(n))] ==>
      DeliveredRows(cfg, t, v, ids, n + 1, handler, clock)
  {
  }

  // What a whole batch does to the event rows.
  ghost predicate BatchRows(
    cfg: Config, t: Table, u: Table, ids: seq<EventId>, worker: WorkerId, now: Time,
    handler: (EventId, nat) -> Option<string>, clock: nat -> Time)
  {
    && t.events.Keys == u.events.Keys
    && (forall i :: 0 <= i < |ids| ==> ids[i] in t.events)
    && (forall i :: 0 <= i < |ids| ==>
         u.events[ids[i]] ==
         DeliveredRow(cfg, t.events[ids[i]], worker, now, handler(ids[i], t.events[ids[i]].attemptCount + 1), clock(i)))
    && (forall id :: id in t.events && id !in ids ==> u.events[id] == t.events[id])
  }

  lemma ClaimLeases(
    cfg: Config, t: Table, now: Time, busy: set<EventId>, batchSize: nat, ids: seq<EventId>, worker: WorkerId)
    requires Consistent(t) && worker != "" && IsReadyBatch(cfg, t, now, busy, batchSize, ids)
    ensures forall id :: id in ids ==> id in t.events && Ready(cfg, t.events[id], now)
    ensures var u := ClaimAll(t, ids, worker, now);
      && Leased(u, ids, worker)
      && (forall id :: id in ids ==> u.events[id] == ClaimedRow(t.events[id], worker, now))
      && (forall id :: id in t.events && id !in ids ==> u.events[id] == t.events[id])
  {
    assert forall id :: id in ids ==> id in ReadyIds(cfg, t, now, busy);
    ClaimAllRows(t, ids, worker, now);
  }

  // Claiming and delivering a batch: its effect on each row.
  lemma BatchEffect(
    cfg: Config, t: Table, u: Table, v: Table, ids: seq<EventId>, worker: WorkerId, now: Time,
    handler: (EventId, nat) -> Option<string>, clock: nat -> Time)
    requires t.events.Keys == u.events.Keys && forall id :: id in ids ==> id in t.events
    requires forall id :: id in ids ==> u.events[id] == ClaimedRow(t.events[id], worker, now)
    requires forall id :: id in t.events && id !in ids ==> u.events[id] == t.events[id]
    requires DeliveredRows(cfg, u, v, ids, |ids|, handler, clock)
    ensures BatchRows(cfg, t, v, ids, worker, now, handler, clock)
  {
    forall i | 0 <= i < |ids|
      ensures ids[i] in t.events
      ensures v.events[ids[i]] ==
        DeliveredRow(cfg, t.events[ids[i]], worker, now, handler(ids[i], t.events[ids[i]].attemptCount + 1), clock(i))
    {
      assert ids[i] in ids;
    }
  }

  lemma BatchSettles(
    cfg: Config, t: Table, u: Table, ids: seq<EventId>, worker: WorkerId, now: Time,
    handler: (EventId, nat) -> Option<string>, clock: nat -> Time)
    requires Settled(cfg, t) && Distinct(ids) && BatchRows(cfg, t, u, ids, worker, now, handler, clock)
    requires forall id :: id in ids ==> id in t.events && t.events[id].Open()
    ensures Settled(cfg, u) && Work(cfg, u) + |ids| <= Work(cfg, t)
  {
    hide DeliveredRow, Limit, WorkOf, Settled;
    forall id | id in t.events
      ensures WorkOf(cfg, u.events[id]) <= WorkOf(cfg, t.events[id])
        && (id in ids ==> WorkOf(cfg, u.events[id]) < WorkOf(cfg, t.events[id]))
      ensures SettledRow(cfg, u.events[id])
    {
      SettledAt(cfg, t, id);
      if id in ids {
        var i :| 0 <= i < |ids| && ids[i] == id;
        RowSettles(cfg, t.events[id], worker, now, handler(id, t.events[id].attemptCount + 1), clock(i));
      }
    }
    AllSettled(cfg, u);
    WorkDrops(WorkByEvent(cfg, t), WorkByEvent(cfg, u), ids);
  }

  predicate SettledRow(cfg: Config, e: Event) {
    e.Open() ==> e.lockedAt.None? && e.attemptCount < Limit(cfg)
  }

  lemma SettledAt(cfg: Config, t: Table, id: EventId)
    requires Settled(cfg, t) && id in t.events
    ensures SettledRow(cfg, t.events[id])
  {
  }

  lemma AllSettled(cfg: Config, t: Table)
    requires forall id :: id in t.events ==> SettledRow(cfg, t.events[id])
    ensures Settled(cfg, t)
  {
  }

  // One delivered attempt uses up work and leaves the row settled.
  lemma RowSettles(cfg: Config, e: Event, worker: WorkerId, now: Time, outcome: Option<string>, done: Time)
    requires e.Open() && SettledRow(cfg, e)
    ensures var f := DeliveredRow(cfg, e, worker, now, outcome, done);
      SettledRow(cfg, f) && WorkOf(cfg, f) < WorkOf(cfg, e)
  {
    hide SafeError, RetrySeconds;
  }

  // ---- draining ----

  // One of the attempts an event has left ends well.
  ghost predicate Succeeds(cfg: Config, e: Event, id: EventId, handler: (EventId, nat) -> Option<string>) {
    exists n :: e.attemptCount < n <= Limit(cfg) && HandlerOutcome(e.eventType, handler(id, n)).None?
  }

  // When the attempts of a run that claims at a time finish.
  function FinishTimes(now: Time, duration: (nat, nat) -> nat, run: nat): nat -> Time {
    (i: nat) => now + duration(run, i)
  }

  // Where draining has brought one event, from its first row e to f: all its
  // attempts so far failed, or it is closed as its handler decides.
  ghost predicate Drained(cfg: Config, id: EventId, e: Event, f: Event, handler: (EventId, nat) -> Option<string>) {
    && f.eventType == e.eventType
    && (!e.Open() ==> f == e)
    && (e.Open() && f.Open() ==>
          && e.attemptCount <= f.attemptCount
          && forall n :: e.attemptCount < n <= f.attemptCount ==> HandlerOutcome(e.eventType, handler(id, n)).Some?)
    && (e.Open() && !f.Open() ==>
          && (f.processedAt.Some? <==> Succeeds(cfg, e, id, handler))
          && (f.failedAt.Some? <==> !Succeeds(cfg, e, id, handler)))
  }

  ghost predicate DrainedRows(cfg: Config, t: Table, u: Table, handler: (EventId, nat) -> Option<string>) {
    u.events.Keys == t.events.Keys && forall id :: id in t.events ==>
      Drained(cfg, id, t.events[id], u.events[id], handler)
  }

  lemma NothingDrained(cfg: Config, t: Table, handler: (EventId, nat) -> Option<string>)
    ensures DrainedRows(cfg, t, t, handler)
  {
  }

  lemma AllDrained(cfg: Config, t: Table, u: Table, handler: (EventId, nat) -> Option<string>)
    requires DrainedRows(cfg, t, u, handler) && forall id :: id in u.events ==> !u.events[id].Open()
    ensures forall id :: id in t.events && !t.events[id].Open() ==> u.events[id] == t.events[id]
    ensures forall id :: id in t.events && t.events[id].Open() ==>
      && (u.events[id].processedAt.Some? <==> Succeeds(cfg, t.events[id], id, handler))
      && (u.events[id].failedAt.Some? <==> !Succeeds(cfg, t.events[id], id, handler))
  {
    hide Succeeds;
  }

  // One more attempt of an event that is still open.
  lemma AttemptDrains(
    cfg: Config, id: EventId, e: Event, f: Event, worker: WorkerId, now: Time,
    handler: (EventId, nat) -> Option<string>, done: Time)
    requires Drained(cfg, id, e, f, handler) && e.Open() && f.Open() && f.attemptCount < Limit(cfg)
    ensures Drained(cfg, id, e, DeliveredRow(cfg, f, worker, now, handler(id, f.attemptCount + 1), done), handler)
  {
    hide SafeError, RetrySeconds;
    var n := f.attemptCount + 1;
    if HandlerOutcome(e.eventType, handler(id, n)).None? {
      assert Succeeds(cfg, e, id, handler);
    } else if n >= cfg.maxAttempts {
      assert Limit(cfg) == n;
      assert !Succeeds(cfg, e, id, handler);
    }
  }

  lemma BatchDrains(
    cfg: Config, first: Table, t: Table, u: Table, now: Time, batchSize: nat, ids: seq<EventId>, worker: WorkerId,
    handler: (EventId, nat) -> Option<string>, clock: nat -> Time)
    requires DrainedRows(cfg, first, t, handler) && Settled(cfg, t)
    requires IsReadyBatch(cfg, t, now, {}, batchSize, ids) && BatchRows(cfg, t, u, ids, worker, now, handler, clock)
    ensures DrainedRows(cfg, first, u, handler)
  {
    hide Drained, DeliveredRow;
    forall id | id in first.events
      ensures Drained(cfg, id, first.events[id], u.events[id], handler)
    {
      if id in ids {
        assert id in ReadyIds(cfg, t, now, {});
        var i :| 0 <= i < |ids| && ids[i] == id;
        StillOpen(cfg, id, first.events[id], t.events[id], handler);
        AttemptDrains(cfg, id, first.events[id], t.events[id], worker, now, handler, clock(i));
      }
    }
  }

  lemma StillOpen(cfg: Config, id: EventId, e: Event, f: Event, handler: (EventId, nat) -> Option<string>)
    requires Drained(cfg, id, e, f, handler) && f.Open()
    ensures e.Open()
  {
  }

  // The times of successive runs.
  ghost predicate NeverBack(times: nat -> Time) {
    forall i, j :: 0 <= i <= j ==> times(i) <= times(j)
  }

  ghost predicate Passes(times: nat -> Time, bound: Time) {
    exists i :: times(i) >= bound
  }

  ghost predicate PassesEvery(times: nat -> Time) {
    forall bound :: Passes(times, bound)
  }

  ghost predicate AvailableBy(t: Table, bound: Time) {
    forall id :: id in t.events && t.events[id].Open() ==> t.events[id].availableAt <= bound
  }

  lemma {:induction false} LatestAvailability(t: Table, ids: set<EventId>) returns (latest: Time)
    ensures forall id :: id in ids && id in t.events ==> t.events[id].availableAt <= latest
  {
    if ids == {} {
      latest := 0;
    } else {
      var id :| id in ids;
      latest := LatestAvailability(t, ids - {id});
      if id in t.events && latest < t.events[id].availableAt {
        latest := t.events[id].availableAt;
      }
    }
  }

  // From some run on every open event is available.
  lemma AllAvailable(t: Table, times: nat -> Time) returns (last: nat)
    requires PassesEvery(times)
    ensures AvailableBy(t, times(last))
  {
    var latest := LatestAvailability(t, OpenIds(t));
    assert Passes(times, latest);
    last :| times(last) >= latest;
    assert forall id :: id in t.events && t.events[id].Open() ==> id in OpenIds(t);
  }

  // When nothing is leased, every open event is ready once it is available.
  lemma LaterReady(cfg: Config, t: Table, times: nat -> Time, last: nat, run: nat)
    requires Settled(cfg, t) && OpenIds(t) != {} && NeverBack(times) && AvailableBy(t, times(last)) && last <= run
    ensures ReadyIds(cfg, t, times(run), {}) != {}
  {
    var id :| id in OpenIds(t);
    assert times(last) <= times(run);
    assert id in ReadyIds(cfg, t, times(run), {});
  }

  lemma NothingDelivered(
    cfg: Config, t: Table, u: Table, worker: WorkerId, now: Time, handler: (EventId, nat) -> Option<string>,
    clock: nat -> Time, bound: Time)
    requires BatchRows(cfg, t, u, [], worker, now, handler, clock) && AvailableBy(t, bound)
    ensures AvailableBy(u, bound) && Work(cfg, u) == Work(cfg, t)
  {
    assert u.events == t.events;
    assert WorkByEvent(cfg, u) == WorkByEvent(cfg, t);
  }

  // ---- what the rows say ----

  predicate Unlocked(e: Event) {
    e.lockedAt.None? && e.lockedBy == ""
  }

  // Open, available, and not leased or with its lease past.
  predicate MayBeClaimed(cfg: Config, e: Event, now: Time) {
    && e.processedAt.None? && e.failedAt.None? && e.availableAt <= now
    && (e.lockedAt.None? || now > e.lockedAt.value + cfg.Lease())
  }

  // By availability, and then by creation.
  ghost predicate InDeliveryOrder(events: map<EventId, Event>, ids: seq<EventId>) {
    forall i, j :: 0 <= i < j < |ids| && ids[i] in events && ids[j] in events ==>
      var a, b := events[ids[i]], events[ids[j]];
      a.availableAt <= b.availableAt && (a.availableAt == b.availableAt ==> a.createdAt <= b.createdAt)
  }

  ghost predicate ComesAfter(events: map<EventId, Event>, ids: seq<EventId>, id: EventId) {
    id in events && forall other :: other in ids && other in events ==>
      var a, b := events[other], events[id];
      a.availableAt <= b.availableAt && (a.availableAt == b.availableAt ==> a.createdAt <= b.createdAt)
  }

  predicate WasProcessed(e: Event) { e.processedAt.Some? }

  predicate HasFailed(e: Event) { e.failedAt.Some? }

  ghost function Ended(events: map<EventId, Event>, ids: seq<EventId>, p: Event -> bool): set<EventId> {
    set id | id in ids && id in events && p(events[id])
  }

  lemma EndedMembers(
    before: map<EventId, Event>, after: map<EventId, Event>, ids: seq<EventId>, i: nat, p: Event -> bool)
    requires i < |ids| && Distinct(ids) && ids[i] in before && ids[i] in after
    requires forall id :: id in before <==> id in after
    requires forall id :: id in before && id != ids[i] ==> after[id] == before[id]
    ensures ids[i] !in Ended(before, ids[..i], p)
    ensures forall id :: id in Ended(after, ids[..i + 1], p) <==>
      id in Ended(before, ids[..i], p) || (id == ids[i] && p(after[ids[i]]))
  {
    forall id
      ensures id in ids[..i + 1] <==> id in ids[..i] || id == ids[i]
    {
      assert ids[..i + 1] == ids[..i] + [ids[i]];
    }
    assert ids[i] !in ids[..i];
  }

  // One more row that can be in such a state.
  lemma EndedNext(before: map<EventId, Event>, after: map<EventId, Event>, ids: seq<EventId>, i: nat, p: Event -> bool)
    requires i < |ids| && Distinct(ids) && ids[i] in before && ids[i] in after
    requires forall id :: id in before <==> id in after
    requires forall id :: id in before && id != ids[i] ==> after[id] == before[id]
    ensures |Ended(after, ids[..i + 1], p)| == |Ended(before, ids[..i], p)| + if p(after[ids[i]]) then 1 else 0
  {
    EndedMembers(before, after, ids, i, p);
    hide Ended, Distinct;
    var now, was := Ended(after, ids[..i + 1], p), Ended(before, ids[..i], p);
    if p(after[ids[i]]) {
      assert now == was + {ids[i]};
    } else {
      assert now == was;
    }
  }

  lemma NothingEnded(events: map<EventId, Event>, ids: seq<EventId>, p: Event -> bool)
    ensures |Ended(events, ids[..0], p)| == 0
  {
    assert Ended(events, ids[..0], p) == {};
  }

  lemma EndedSets(events: map<EventId, Event>, ids: seq<EventId>)
    requires forall id :: id in ids ==> id in events
    ensures Ended(events, ids, WasProcessed) == set id | id in ids && events[id].processedAt.Some?
    ensures Ended(events, ids, HasFailed) == set id | id in ids && events[id].failedAt.Some?
  {
  }

  lemma LeasedKnown(t: Table, ids: seq<EventId>, worker: WorkerId)
    requires Leased(t, ids, worker)
    ensures Distinct(ids) && forall id :: id in ids ==> id in t.events
  {
  }

  // A finalisation touches only its row's lock, error, availability and closing
  // columns, and the row's current attempt.
  ghost predicate Finalised(t: Table, u: Table, id: EventId) {
    && id in t.events && u.events.Keys == t.events.Keys && u.attempts.Keys == t.attempts.Keys
    && (forall other :: other in t.events && other != id ==> u.events[other] == t.events[other])
    && (forall k :: k in t.attempts && k != (id, t.events[id].attemptCount) ==> u.attempts[k] == t.attempts[k])
    && u.events[id].eventType == t.events[id].eventType && u.events[id].key == t.events[id].key
    && u.events[id].createdAt == t.events[id].createdAt && u.events[id].attemptCount == t.events[id].attemptCount
  }

  lemma BatchNotEmpty(cfg: Config, t: Table, now: Time, batchSize: nat, ids: seq<EventId>)
    requires IsReadyBatch(cfg, t, now, {}, batchSize, ids) && ReadyIds(cfg, t, now, {}) != {} && batchSize >= 1
    ensures |ids| >= 1
  {
  }

  class Outbox {
    const cfg: Config
    var events: map<EventId, Event>
    var attempts: map<(EventId, nat), Attempt>

    function Rows(): Table
      reads this
    {
      Table(events, attempts)
    }

    ghost predicate Valid()
      reads this
    {
      Consistent(Rows())
    }

    constructor (cfg: Config)
      ensures Valid() && this.cfg == cfg && Rows() == Table(map[], map[])
    {
      this.cfg := cfg;
      events, attempts := map[], map[];
    }

    // Insert one event; the unique idempotency key may refuse it.
    method EnqueueEvent(id: EventId, eventType: EventType, key: string, availableAt: Option<Time>, now: Time)
      returns (created: bool)
      requires Valid() && id !in events
      modifies this
      ensures Valid()
      ensures created <==> forall other :: other in old(events) ==> old(events)[other].key != key
      ensures created ==>
        events == old(events)[id := EventRow(eventType, key, if availableAt.Some? then availableAt.value else now, now)]
      ensures created ==>
        && id in events && events[id].eventType == eventType && events[id].key == key
        && events[id].availableAt == (if availableAt.Some? then availableAt.value else now)
        && events[id].createdAt == now && events[id].attemptCount == 0 && events[id].lastError == ""
        && Unlocked(events[id]) && events[id].processedAt.None? && events[id].failedAt.None?
      ensures !created ==> events == old(events)
      ensures attempts == old(attempts)
    {
      if exists other :: other in events && events[other].key == key {
        return false;
      }
      var available := if availableAt.Some? then availableAt.value else now;
      assert forall n :: (id, n) !in attempts;
      events := events[id := EventRow(eventType, key, available, now)];
      created := true;
    }

    // The first row of a nonempty set in delivery order.
    method Earliest(ids: set<EventId>) returns (first: EventId)
      requires ids != {} && ids <= events.Keys
      ensures first in ids
      ensures forall id :: id in ids ==> NoLater(events[first], events[id])
    {
      first :| first in ids;
      var rest := ids - {first};
      while rest != {}
        invariant first in ids && rest <= ids
        invariant forall id :: id in ids - rest ==> NoLater(events[first], events[id])
        decreases rest
      {
        var id :| id in rest;
        if !NoLater(events[first], events[id]) {
          first := id;
        }
        rest := rest - {id};
      }
    }

    // The select-for-update query of a claim, skipping rows in busy.
    method SelectReady(batchSize: nat, now: Time, busy: set<EventId>) returns (ids: seq<EventId>)
      ensures IsReadyBatch(cfg, Rows(), now, busy, batchSize, ids)
      ensures Distinct(ids) && |ids| <= batchSize && InDeliveryOrder(events, ids)
      ensures forall id :: id in ids ==> id in events && id !in busy && MayBeClaimed(cfg, events[id], now)
      ensures forall id :: id in events && id !in busy && MayBeClaimed(cfg, events[id], now) && id !in ids ==>
        |ids| == batchSize && ComesAfter(events, ids, id)
    {
      var rest := ReadyIds(cfg, Rows(), now, busy);
      ids := [];
      ghost var ready := rest;
      while |ids| < batchSize && rest != {}
        invariant rest <= ready && |ids| + |rest| == |ready| && |ids| <= batchSize
        invariant Distinct(ids)
        invariant forall id :: id in ready <==> id in ids || id in rest
        invariant forall id :: id in ids ==> id !in rest
        invariant forall i, j :: 0 <= i < j < |ids| && ids[i] in events && ids[j] in events ==>
          NoLater(events[ids[i]], events[ids[j]])
        invariant forall id, other :: id in ids && other in rest ==> NoLater(events[id], events[other])
        decreases rest
      {
        var next := Earliest(rest);
        ids, rest := ids + [next], rest - {next};
      }
      assert forall id :: id in ready <==> id in events && id !in busy && MayBeClaimed(cfg, events[id], now);
    }

    method ClaimEvents(worker: WorkerId, batchSize: nat, now: Time, busy: set<EventId>) returns (ids: seq<EventId>)
      requires Valid() && worker != ""
      modifies this
      ensures Valid()
      ensures IsReadyBatch(cfg, old(Rows()), now, busy, batchSize, ids)
      ensures Rows() == ClaimAll(old(Rows()), ids, worker, now)
      ensures events.Keys == old(events).Keys && forall id :: id in ids ==> id in old(events)
      ensures forall id :: id in ids ==>
        && events[id].attemptCount == old(events)[id].attemptCount + 1
        && events[id].lockedAt == Some(now) && events[id].lockedBy == worker
        && events[id] ==
             old(events)[id].(attemptCount := events[id].attemptCount, lockedAt := Some(now), lockedBy := worker)
      ensures forall id :: id in events && id !in ids ==> events[id] == old(events)[id]
    {
      ids := SelectReady(batchSize, now, busy);
      ghost var before := Rows();
      for i := 0 to |ids|
        invariant Distinct(ids) && forall id :: id in ids ==> id in before.events
        invariant Rows() == ClaimAll(before, ids[..i], worker, now)
      {
        ClaimAllStep(before, ids, i, worker, now);
        var id := ids[i];
        var event := events[id];
        event := event.(attemptCount := event.attemptCount + 1, lockedAt := Some(now), lockedBy := worker);
        events := events[id := event];
        attempts := attempts[(id, event.attemptCount) := Attempt(now, None, false, "")];
      }
      assert ids[..|ids|] == ids;
      ClaimKeepsConsistent(before, ids, worker, now);
      ClaimAllRows(before, ids, worker, now);
    }

    // First transaction of a delivery: is the event still this worker's to deliver?
    method BeginDelivery(id: EventId, worker: WorkerId) returns (check: Check)
      ensures check == CheckDelivery(Rows(), id, worker)
      ensures check == NoSuchEvent <==> id !in events
      ensures check == Proceed <==> id in events && events[id].Open() && events[id].lockedBy == worker
    {
      if id !in events {
        return NoSuchEvent;
      }
      var event := events[id];
      if event.processedAt.Some? || event.failedAt.Some? {
        return Skip;
      }
      if event.lockedBy != worker {
        return Skip;
      }
      check := Proceed;
    }

    // Last transaction of a delivery whose handler raised. Neither the lock
    // nor the terminal columns are looked at again.
    method RecordFailure(id: EventId, errorType: string, now: Time) returns (outcome: Delivery)
      requires Valid() && id in events && events[id].attemptCount >= 1
      modifies this
      ensures Valid()
      ensures FailDelivery(cfg, old(Rows()), id, errorType, now) == Some(Rows())
      ensures outcome == FailedOutcome(cfg, old(events)[id])
      ensures var e := old(events)[id];
        && outcome == (if e.attemptCount >= cfg.maxAttempts then Failed else Retry)
        && Finalised(old(Rows()), Rows(), id) && Unlocked(events[id])
        && events[id].lastError == SafeError(errorType)
        && events[id].failedAt == (if outcome == Failed then Some(now) else e.failedAt)
        && events[id].availableAt ==
             (if outcome == Failed then e.availableAt else now + RetrySeconds(e.attemptCount) * SECOND)
        && events[id].processedAt == e.processedAt
        && var k := (id, e.attemptCount);
           && k in attempts && k in old(attempts)
           && attempts[k] == old(attempts)[k].(finishedAt := Some(now), errorMessage := SafeError(errorType))
    {
      FinalisingKeepsNumbering(cfg, Rows(), id, errorType, now);
      var safeError := SafeError(errorType);
      var event := events[id];
      var attempt := attempts[(id, event.attemptCount)];
      attempts := attempts[(id, event.attemptCount) := attempt.(finishedAt := Some(now), errorMessage := safeError)];
      event := event.(lastError := safeError);
      event := event.(lockedAt := None, lockedBy := "");
      if event.attemptCount >= cfg.maxAttempts {
        event := event.(failedAt := Some(now));
        outcome := Failed;
      } else {
        event := event.(availableAt := now + RetrySeconds(event.attemptCount) * SECOND);
        outcome := Retry;
      }
      events := events[id := event];
    }

    // Last transaction of a delivery whose handler returned.
    method RecordSuccess(id: EventId, now: Time)
      requires Valid() && id in events && events[id].attemptCount >= 1
      modifies this
      ensures Valid()
      ensures CompleteDelivery(old(Rows()), id, now) == Some(Rows())
      ensures var e := old(events)[id];
        && Finalised(old(Rows()), Rows(), id) && Unlocked(events[id])
        && events[id].processedAt == Some(now) && events[id].lastError == ""
        && events[id].failedAt == e.failedAt && events[id].availableAt == e.availableAt
        && var k := (id, e.attemptCount);
           && k in attempts && k in old(attempts)
           && attempts[k] == old(attempts)[k].(finishedAt := Some(now), succeeded := true)
    {
      FinalisingKeepsNumbering(cfg, Rows(), id, "", now);
      var event := events[id];
      var attempt := attempts[(id, event.attemptCount)];
      attempts := attempts[(id, event.attemptCount) := attempt.(finishedAt := Some(now), succeeded := true)];
      event := event.(processedAt := Some(now), lockedAt := None, lockedBy := "", lastError := "");
      events := events[id := event];
    }

    // The three steps with no other writer between them.
    method DeliverEvent(id: EventId, worker: WorkerId, outcome: Option<string>, done: Time) returns (delivery: Delivery)
      requires Valid() && id in events && (events[id].lockedBy == worker ==> events[id].attemptCount >= 1)
      modifies this
      ensures Valid()
      ensures (Rows(), delivery) == DeliverOne(cfg, old(Rows()), id, worker, outcome, done)
      ensures events.Keys == old(events).Keys && id in events
      ensures forall other :: other in events && other != id ==> events[other] == old(events)[other]
      ensures var e := old(events)[id];
        var mine := e.processedAt.None? && e.failedAt.None? && e.lockedBy == worker;
        && (delivery == Skipped <==> !mine) && (!mine ==> events == old(events) && attempts == old(attempts))
        && (delivery == Processed <==> mine && Handled(e.eventType) && outcome.None?)
        && (delivery == Processed ==> events[id].processedAt == Some(done))
        && (mine ==>
              && (events[id].processedAt.Some? <==> delivery == Processed)
              && (events[id].failedAt.Some? <==> delivery == Failed))
        && (delivery == Failed <==>
              mine && (!Handled(e.eventType) || outcome.Some?) && e.attemptCount >= cfg.maxAttempts)
        && (mine && delivery != Processed ==>
              events[id].lastError == SafeError(if Handled(e.eventType) then outcome.value else "ValueError"))
    {
      var check := BeginDelivery(id, worker);
      if check == Skip {
        return Skipped;
      }
      match HandlerOutcome(events[id].eventType, outcome) {
        case Some(errorType) =>
          delivery := RecordFailure(id, errorType, done);
        case None =>
          RecordSuccess(id, done);
          delivery := Processed;
      }
    }

    // Deliver claimed events one after the other, counting the outcomes. The
    // handler's outcome is any function of the event and its attempt number.
    method DeliverClaimed(
      ids: seq<EventId>, worker: WorkerId, handler: (EventId, nat) -> Option<string>, clock: nat -> Time)
      returns (counts: Counts)
      requires Valid() && Leased(Rows(), ids, worker)
      modifies this
      ensures Valid()
      ensures counts.claimed == |ids| == counts.processed + counts.retry + counts.failed
      ensures counts.skipped == 0
      ensures events.Keys == old(events).Keys && forall id :: id in ids ==> id in events
      ensures counts.processed == |set id | id in ids && events[id].processedAt.Some?|
      ensures counts.failed == |set id | id in ids && events[id].failedAt.Some?|
      ensures DeliveredRows(cfg, old(Rows()), Rows(), ids, |ids|, handler, clock)
    {
      hide Consistent, Leased, DeliveredRows, AttemptedRow, DeliverOne, Ended, Distinct;
      counts := Counts(0, 0, 0, 0, 0);
      ghost var before := Rows();
      NoneDelivered(cfg, before, ids, handler, clock);
      LeasedKnown(before, ids, worker);
      NothingEnded(events, ids, WasProcessed);
      NothingEnded(events, ids, HasFailed);
      for i := 0 to |ids|
        invariant Valid()
        invariant counts.claimed == i == counts.processed + counts.retry + counts.failed && counts.skipped == 0
        invariant events.Keys == before.events.Keys
        invariant counts.processed == |Ended(events, ids[..i], WasProcessed)|
        invariant counts.failed == |Ended(events, ids[..i], HasFailed)|
        invariant DeliveredRows(cfg, before, Rows(), ids, i, handler, clock)
      {
        counts := counts.(claimed := counts.claimed + 1);
        var id := ids[i];
        ghost var t := Rows();
        NextLeased(cfg, before, t, ids, i, worker, handler, clock);
        DeliverOneRows(cfg, t, id, worker, handler(id, events[id].attemptCount), clock(i));
        DeliveredRowsStep(cfg, before, t, ids, i, handler, clock);
        var delivery := DeliverEvent(id, worker, handler(id, events[id].attemptCount), clock(i));
        EndedNext(t.events, events, ids, i, WasProcessed);
        EndedNext(t.events, events, ids, i, HasFailed);
        counts := Count(counts, delivery);
      }
      assert ids[..|ids|] == ids;
      EndedSets(events, ids);
    }

    // Claim a batch and deliver it, with this worker alone on the tables.
    method ProcessBatch(
      worker: WorkerId, batchSize: nat, now: Time, busy: set<EventId>,
      handler: (EventId, nat) -> Option<string>, clock: nat -> Time)
      returns (counts: Counts, ghost ids: seq<EventId>)
      requires Valid() && worker != ""
      modifies this
      ensures Valid()
      ensures IsReadyBatch(cfg, old(Rows()), now, busy, batchSize, ids)
      ensures counts.claimed == |ids| == counts.processed + counts.retry + counts.failed
      ensures counts.skipped == 0
      ensures BatchRows(cfg, old(Rows()), Rows(), ids, worker, now, handler, clock)
      ensures old(Settled(cfg, Rows())) ==>
        Settled(cfg, Rows()) && Work(cfg, Rows()) + |ids| <= old(Work(cfg, Rows()))
    {
      ghost var before := Rows();
      var claimed := ClaimEvents(worker, batchSize, now, busy);
      ids := claimed;
      ClaimLeases(cfg, before, now, busy, batchSize, ids, worker);
      ghost var leased := Rows();
      counts := DeliverClaimed(claimed, worker, handler, clock);
      BatchEffect(cfg, before, leased, Rows(), ids, worker, now, handler, clock);
      if Settled(cfg, before) {
        BatchSettles(cfg, before, Rows(), ids, worker, now, handler, clock);
      }
    }

    // The batch command run again and again at any times that never go back and
    // pass every bound closes every event; a run may find nothing ready. Each
    // attempt takes any time from its claim on; the handler decides which
    // events end processed.
    method DrainOutbox(
      worker: WorkerId, batchSize: nat, handler: (EventId, nat) -> Option<string>,
      duration: (nat, nat) -> nat, times: nat -> Time)
      requires Valid() && Settled(cfg, Rows()) && worker != "" && batchSize >= 1
      requires NeverBack(times) && PassesEvery(times)
      modifies this
      ensures Valid() && events.Keys == old(events).Keys
      ensures forall id :: id in events ==> !events[id].Open()
      ensures forall id :: id in events && !old(events)[id].Open() ==> events[id] == old(events)[id]
      ensures forall id :: id in events && old(events)[id].Open() ==>
        && (events[id].processedAt.Some? <==> Succeeds(cfg, old(events)[id], id, handler))
        && (events[id].failedAt.Some? <==> !Succeeds(cfg, old(events)[id], id, handler))
    {
      hide Consistent, Settled, BatchRows, DrainedRows, Drained, Succeeds, IsReadyBatch, Work, FinishTimes, ReadyIds,
        NeverBack, PassesEvery, AvailableBy;
      ghost var first := Rows();
      NothingDrained(cfg, first, handler);
      var run := 0;
      var open := OpenIds(Rows());
      ghost var last := AllAvailable(Rows(), times);
      while open != {}
        invariant Valid() && Settled(cfg, Rows())
        invariant events.Keys == first.events.Keys
        invariant DrainedRows(cfg, first, Rows(), handler)
        invariant open == OpenIds(Rows()) && AvailableBy(Rows(), times(last))
        decreases Work(cfg, Rows()), if run < last then last - run else 0
      {
        ghost var before := Rows();
        SettledWork(cfg, before);
        var now := times(run);
        if run >= last {
          LaterReady(cfg, before, times, last, run);
        }
        var counts, ids := ProcessBatch(worker, batchSize, now, {}, handler, FinishTimes(now, duration, run));
        if run >= last {
          BatchNotEmpty(cfg, before, now, batchSize, ids);
        }
        BatchDrains(cfg, first, before, Rows(), now, batchSize, ids, worker, handler, FinishTimes(now, duration, run));
        SettledWork(cfg, Rows());
        open := OpenIds(Rows());
        run := run + 1;
        if ids == [] {
          NothingDelivered(cfg, before, Rows(), worker, now, handler, FinishTimes(now, duration, run - 1), times(last));
        } else {
          last := AllAvailable(Rows(), times);
        }
      }
      assert forall id :: id in events && events[id].Open() ==> id in open;
      AllDrained(cfg, first, Rows(), handler);
    }

    // Make a terminally failed event eligible again.
    method ReplayFailedEvent(id: EventId, now: Time) returns (found: bool)
      requires Valid()
      modifies this
      ensures Valid()
      ensures found <==> id in old(events)
      ensures found ==> events == old(events)[id := ReplayedRow(old(events)[id], now)]
      ensures found && old(events)[id].processedAt.Some? ==> events == old(events)
      ensures found && old(events)[id].processedAt.None? ==>
        && events.Keys == old(events).Keys
        && (forall other :: other in events && other != id ==> events[other] == old(events)[other])
        && events[id].processedAt.None? && events[id].failedAt.None? && events[id].availableAt == now
        && Unlocked(events[id]) && events[id].lastError == ""
        && events[id].attemptCount == old(events)[id].attemptCount && events[id].key == old(events)[id].key
        && events[id].eventType == old(events)[id].eventType && events[id].createdAt == old(events)[id].createdAt
      ensures !found ==> events == old(events)
      ensures attempts == old(attempts)
    {
      if id !in events {
        return false;
      }
      var event := events[id];
      if event.processedAt.Some? {
        return true;
      }
      event := event.(failedAt := None);
      event := event.(availableAt := now, lockedAt := None, lockedBy := "", lastError := "");
      events := events[id := event];
      found := true;
    }
  }

  lemma SettledWork(cfg: Config, t: Table)
    requires Settled(cfg, t)
    ensures Work(cfg, t) >= 0
  {
    TotalNonNegative(WorkByEvent(cfg, t));
  }
}
