// The two outbox tables and the row updates the outbox services make.
// Times are whole microseconds, the resolution of the stored timestamps.
module OutboxRows {
  import opened Wrappers
  import opened EventTypes
  import opened Sequences

  type Time = int
  type EventId = nat
  type WorkerId = string

  const SECOND: int := 1_000_000
  const MAX_ERROR_LENGTH := 200

  // OUTBOX_LEASE_SECONDS and OUTBOX_MAX_ATTEMPTS; any integers are accepted.
  datatype Config = Config(leaseSeconds: int, maxAttempts: int) {
    function Lease(): int { leaseSeconds * SECOND }
  }

  datatype Event = Event(
    eventType: EventType,
    key: string,
    availableAt: Time,
    createdAt: Time,
    lockedAt: Option<Time>,
    lockedBy: WorkerId,
    processedAt: Option<Time>,
    failedAt: Option<Time>,
    attemptCount: nat,
    lastError: string)
  {
    predicate Open() { processedAt.None? && failedAt.None? }
  }

  datatype Attempt = Attempt(
    startedAt: Time,
    finishedAt: Option<Time>,
    succeeded: bool,
    errorMessage: string)

  // Delivery attempts are keyed by their unique constraint (event, attempt_number).
  datatype Table = Table(events: map<EventId, Event>, attempts: map<(EventId, nat), Attempt>)

  // The most claims an event needs: a first failure at the limit is terminal.
  function Limit(cfg: Config): nat {
    if cfg.maxAttempts >= 1 then cfg.maxAttempts else 1
  }

  datatype Check = Skip | Proceed | NoSuchEvent
  datatype Delivery = Processed | Retry | Failed | Skipped

  function Power2(n: nat): (p: nat)
    ensures p >= 1
  {
    if n == 0 then 1 else 2 * Power2(n - 1)
  }

  // Seconds until a failed event becomes available again.
  function RetrySeconds(attemptCount: nat): nat {
    var p := Power2(if attemptCount < 8 then attemptCount else 8);
    if p < 300 then p else 300
  }

  function EventRow(eventType: EventType, key: string, availableAt: Time, createdAt: Time): Event {
    Event(eventType, key, availableAt, createdAt, None, "", None, None, 0, "")
  }

  // What the handler of one attempt does: None is success, Some is the type
  // name of the exception. An event type without a handler is a ValueError.
  function HandlerOutcome(eventType: EventType, outcome: Option<string>): Option<string> {
    if Handled(eventType) then outcome else Some("ValueError")
  }

  function SafeError(errorType: string): string {
    var full := "Delivery failed (" + errorType + ")";
    if |full| <= MAX_ERROR_LENGTH then full else full[..MAX_ERROR_LENGTH]
  }

  // What is stored of an error is its beginning.
  lemma SafeErrorFits(errorType: string)
    ensures var full := "Delivery failed (" + errorType + ")";
      && SafeError(errorType) <= full && |SafeError(errorType)| == (if |full| < 200 then |full| else 200)
  {
  }

  // ---- selection and claiming ----

  predicate Ready(cfg: Config, e: Event, now: Time) {
    && e.Open()
    && e.availableAt <= now
    && (e.lockedAt.None? || e.lockedAt.value < now - cfg.Lease())
  }

  function ReadyIds(cfg: Config, t: Table, now: Time, busy: set<EventId>): set<EventId> {
    set id | id in t.events && Ready(cfg, t.events[id], now) && id !in busy
  }

  predicate NoLater(a: Event, b: Event) {
    a.availableAt < b.availableAt || (a.availableAt == b.availableAt && a.createdAt <= b.createdAt)
  }

  // The first batchSize rows of the ready rows nobody else has locked, in
  // order of availability and then creation.
  ghost predicate IsReadyBatch(
    cfg: Config, t: Table, now: Time, busy: set<EventId>, batchSize: nat, ids: seq<EventId>)
  {
    var ready := ReadyIds(cfg, t, now, busy);
    && Distinct(ids)
    && (forall id :: id in ids ==> id in ready)
    && |ids| == (if batchSize < |ready| then batchSize else |ready|)
    && (forall i, j :: 0 <= i < j < |ids| && ids[i] in t.events && ids[j] in t.events ==>
      NoLater(t.events[ids[i]], t.events[ids[j]]))
    && (forall id, other :: id in ids && other in ready && other !in ids ==> NoLater(t.events[id], t.events[other]))
  }

  function ClaimedRow(e: Event, worker: WorkerId, now: Time): Event {
    e.(attemptCount := e.attemptCount + 1, lockedAt := Some(now), lockedBy := worker)
  }

  // One leased row and its delivery attempt.
  function ClaimOne(t: Table, id: EventId, worker: WorkerId, now: Time): Table
    requires id in t.events
  {
    var row := ClaimedRow(t.events[id], worker, now);
    Table(t.events[id := row], t.attempts[(id, row.attemptCount) := Attempt(now, None, false, "")])
  }

  // All of ids leased to worker, first to last.
  function ClaimAll(t: Table, ids: seq<EventId>, worker: WorkerId, now: Time): (u: Table)
    requires forall id :: id in ids ==> id in t.events
    ensures u.events.Keys == t.events.Keys
  {
    if ids == [] then t
    else ClaimOne(ClaimAll(t, ids[..|ids| - 1], worker, now), ids[|ids| - 1], worker, now)
  }

  lemma ClaimAllStep(t: Table, ids: seq<EventId>, i: nat, worker: WorkerId, now: Time)
    requires i < |ids| && forall id :: id in ids ==> id in t.events
    ensures ClaimAll(t, ids[..i + 1], worker, now) == ClaimOne(ClaimAll(t, ids[..i], worker, now), ids[i], worker, now)
  {
    assert ids[..i + 1][..i] == ids[..i];
  }

  // ---- the three steps of a delivery ----

  function CheckDelivery(t: Table, id: EventId, worker: WorkerId): Check {
    if id !in t.events then NoSuchEvent
    else if !t.events[id].Open() || t.events[id].lockedBy != worker then Skip
    else Proceed
  }

  function FailedOutcome(cfg: Config, e: Event): Delivery {
    if e.attemptCount >= cfg.maxAttempts then Failed else Retry
  }

  function FailedRow(cfg: Config, e: Event, errorType: string, now: Time): Event {
    var unlocked := e.(lastError := SafeError(errorType), lockedAt := None, lockedBy := "");
    if e.attemptCount >= cfg.maxAttempts
    then unlocked.(failedAt := Some(now))
    else unlocked.(availableAt := now + RetrySeconds(e.attemptCount) * SECOND)
  }

  // None when a lookup the service makes would find no row.
  function FailDelivery(cfg: Config, t: Table, id: EventId, errorType: string, now: Time): Option<Table> {
    if id !in t.events || (id, t.events[id].attemptCount) !in t.attempts then None
    else
      var e := t.events[id];
      var k := (id, e.attemptCount);
      Some(Table(t.events[id := FailedRow(cfg, e, errorType, now)],
                 t.attempts[k := t.attempts[k].(finishedAt := Some(now), errorMessage := SafeError(errorType))]))
  }

  function ProcessedRow(e: Event, now: Time): Event {
    e.(processedAt := Some(now), lockedAt := None, lockedBy := "", lastError := "")
  }

  function CompleteDelivery(t: Table, id: EventId, now: Time): Option<Table> {
    if id !in t.events || (id, t.events[id].attemptCount) !in t.attempts then None
    else
      var e := t.events[id];
      var k := (id, e.attemptCount);
      Some(Table(t.events[id := ProcessedRow(e, now)],
                 t.attempts[k := t.attempts[k].(finishedAt := Some(now), succeeded := true)]))
  }

  function ReplayedRow(e: Event, now: Time): Event {
    if e.processedAt.Some? then e
    else e.(failedAt := None, availableAt := now, lockedAt := None, lockedBy := "", lastError := "")
  }

  // ---- what every row writer keeps ----

  // The attempts of each event are numbered exactly 1 .. attempt_count.
  ghost predicate Numbered(t: Table) {
    forall id, n :: (id, n) in t.attempts <==> id in t.events && 1 <= n <= t.events[id].attemptCount
  }

  // The idempotency keys are pairwise different.
  ghost predicate KeysUnique(t: Table) {
    forall a, b :: a in t.events && b in t.events && t.events[a].key == t.events[b].key ==> a == b
  }

  // A row is locked exactly when a worker is named on it.
  ghost predicate LocksNamed(t: Table) {
    forall id :: id in t.events ==> (t.events[id].lockedAt.None? <==> t.events[id].lockedBy == "")
  }

  // The claim inserts no attempt that already exists, and the numbering stays exact.
  lemma ClaimOneKeepsNumbering(t: Table, id: EventId, worker: WorkerId, now: Time)
    requires Numbered(t) && id in t.events
    ensures (id, t.events[id].attemptCount + 1) !in t.attempts
    ensures Numbered(ClaimOne(t, id, worker, now))
  {
    var u := ClaimOne(t, id, worker, now);
    forall i, n
      ensures (i, n) in u.attempts <==> i in u.events && 1 <= n <= u.events[i].attemptCount
    {
      assert (i, n) in u.attempts <==> (i, n) in t.attempts || (i, n) == (id, t.events[id].attemptCount + 1);
    }
  }

  // Claiming a batch is claiming each of its rows independently: rows outside
  // the batch and all earlier attempts stay as they were.
  lemma {:induction false} ClaimAllRows(t: Table, ids: seq<EventId>, worker: WorkerId, now: Time)
    requires Numbered(t) && Distinct(ids) && forall id :: id in ids ==> id in t.events
    ensures var u := ClaimAll(t, ids, worker, now);
      && Numbered(u)
      && (forall id :: id in ids ==> u.events[id] == ClaimedRow(t.events[id], worker, now))
      && (forall id :: id in t.events && id !in ids ==> u.events[id] == t.events[id])
      && (forall k :: k in t.attempts ==> k in u.attempts && u.attempts[k] == t.attempts[k])
      && (forall id, n :: (id, n) in u.attempts && (id, n) !in t.attempts ==>
            id in ids && n == t.events[id].attemptCount + 1 && u.attempts[(id, n)] == Attempt(now, None, false, ""))
  {
    if ids != [] {
      var init, last := ids[..|ids| - 1], ids[|ids| - 1];
      assert ids == init + [last];
      assert last !in init;
      ClaimAllRows(t, init, worker, now);
      ClaimOneKeepsNumbering(ClaimAll(t, init, worker, now), last, worker, now);
    }
  }

  lemma ClaimAllEvents(t: Table, ids: seq<EventId>, worker: WorkerId, now: Time)
    requires Numbered(t) && Distinct(ids) && forall id :: id in ids ==> id in t.events
    ensures var u := ClaimAll(t, ids, worker, now);
      && (forall id :: id in ids ==> u.events[id] == ClaimedRow(t.events[id], worker, now))
      && (forall id :: id in t.events && id !in ids ==> u.events[id] == t.events[id])
  {
    ClaimAllRows(t, ids, worker, now);
  }

  ghost predicate Consistent(t: Table) {
    Numbered(t) && LocksNamed(t) && KeysUnique(t)
  }

  lemma ClaimKeepsConsistent(t: Table, ids: seq<EventId>, worker: WorkerId, now: Time)
    requires Consistent(t) && worker != "" && Distinct(ids) && forall id :: id in ids ==> id in t.events
    ensures Consistent(ClaimAll(t, ids, worker, now))
  {
    ClaimAllRows(t, ids, worker, now);
    var u := ClaimAll(t, ids, worker, now);
    assert forall id :: id in t.events ==> u.events[id].key == t.events[id].key;
  }

  // Lookups of the current attempt never fail, and finalising keeps the numbering.
  lemma FinalisingKeepsNumbering(cfg: Config, t: Table, id: EventId, errorType: string, now: Time)
    requires Numbered(t) && id in t.events && t.events[id].attemptCount >= 1
    ensures var f := FailDelivery(cfg, t, id, errorType, now); f.Some? && Numbered(f.value)
    ensures var c := CompleteDelivery(t, id, now); c.Some? && Numbered(c.value)
  {
    assert (id, t.events[id].attemptCount) in t.attempts;
  }

  lemma SameKeysStayUnique(t: Table, u: Table)
    requires KeysUnique(t) && t.events.Keys == u.events.Keys
    requires forall id :: id in t.events ==> u.events[id].key == t.events[id].key
    ensures KeysUnique(u)
  {
  }

  lemma FinalisingKeepsConsistent(cfg: Config, t: Table, id: EventId, errorType: string, now: Time)
    requires Consistent(t) && id in t.events && t.events[id].attemptCount >= 1
    ensures var f := FailDelivery(cfg, t, id, errorType, now); f.Some? && Consistent(f.value)
    ensures var c := CompleteDelivery(t, id, now); c.Some? && Consistent(c.value)
  {
    FinalisingKeepsNumbering(cfg, t, id, errorType, now);
    SameKeysStayUnique(t, FailDelivery(cfg, t, id, errorType, now).value);
    SameKeysStayUnique(t, CompleteDelivery(t, id, now).value);
  }
}
