// Any number of workers over one outbox. Each transaction of the services is
// one step; between the check and the last transaction of a delivery the
// handler runs and every other worker may take steps.
module OutboxSystem {
  import opened Wrappers
  import opened EventTypes
  import opened Sequences
  import opened OutboxRows

  // A claimed event as a worker remembers it: its number of claims and the time of this claim.
  datatype Ticket = Ticket(event: EventId, number: nat, claimedAt: Time)

  // A worker process delivers its batch in order before it claims again.
  datatype Worker = Worker(queue: seq<Ticket>, running: Option<Ticket>)

  datatype System = System(rows: Table, workers: map<WorkerId, Worker>, now: Time)

  datatype Step =
    | Tick(now: Time)
    | Enqueue(id: EventId, eventType: EventType, key: string, availableAt: Time)
    | Claim(worker: WorkerId, ids: seq<EventId>)
    | Begin(worker: WorkerId)
    | Fail(worker: WorkerId, errorType: string)
    | Succeed(worker: WorkerId)
    | Replay(id: EventId)
    | Crash(worker: WorkerId)

  function WorkerOf(s: System, w: WorkerId): Worker {
    if w in s.workers then s.workers[w] else Worker([], None)
  }

  predicate Running(s: System, w: WorkerId) {
    WorkerOf(s, w).running.Some?
  }

  function Ticketed(t: Table, ids: seq<EventId>, now: Time): seq<Ticket>
    requires forall id :: id in ids ==> id in t.events
  {
    seq(|ids|, i requires 0 <= i < |ids| =>
      assert ids[i] in ids; Ticket(ids[i], t.events[ids[i]].attemptCount + 1, now))
  }

  // When a step can happen. A claim may take any ready rows, in any order:
  // which of them a batch takes depends on the rows other workers hold locked.
  ghost predicate Enabled(cfg: Config, s: System, step: Step) {
    match step
    case Tick(now) => s.now <= now
    case Enqueue(id, eventType, key, availableAt) =>
      id !in s.rows.events && forall other :: other in s.rows.events ==> s.rows.events[other].key != key
    case Claim(w, ids) =>
      && w != "" && WorkerOf(s, w) == Worker([], None) && Distinct(ids)
      && forall id :: id in ids ==> id in s.rows.events && Ready(cfg, s.rows.events[id], s.now)
    case Begin(w) => WorkerOf(s, w).running.None? && WorkerOf(s, w).queue != []
    case Fail(w, errorType) =>
      Running(s, w) && FailDelivery(cfg, s.rows, WorkerOf(s, w).running.value.event, errorType, s.now).Some?
    case Succeed(w) =>
      && Running(s, w)
      && CompleteDelivery(s.rows, WorkerOf(s, w).running.value.event, s.now).Some?
      && WorkerOf(s, w).running.value.event in s.rows.events
      && Handled(s.rows.events[WorkerOf(s, w).running.value.event].eventType)
    case Replay(id) => id in s.rows.events
    case Crash(w) => true
  }

  ghost function Apply(cfg: Config, s: System, step: Step): System
    requires Enabled(cfg, s, step)
  {
    match step
    case Tick(now) => s.(now := now)
    case Enqueue(id, eventType, key, availableAt) =>
      s.(rows := s.rows.(events := s.rows.events[id := EventRow(eventType, key, availableAt, s.now)]))
    case Claim(w, ids) =>
      s.(rows := ClaimAll(s.rows, ids, w, s.now),
         workers := s.workers[w := Worker(Ticketed(s.rows, ids, s.now), None)])
    case Begin(w) =>
      var k := WorkerOf(s, w);
      var next := if CheckDelivery(s.rows, k.queue[0].event, w) == Proceed then Some(k.queue[0]) else None;
      s.(workers := s.workers[w := Worker(k.queue[1..], next)])
    case Fail(w, errorType) =>
      var k := WorkerOf(s, w);
      s.(rows := FailDelivery(cfg, s.rows, k.running.value.event, errorType, s.now).value,
         workers := s.workers[w := k.(running := None)])
    case Succeed(w) =>
      var k := WorkerOf(s, w);
      s.(rows := CompleteDelivery(s.rows, k.running.value.event, s.now).value,
         workers := s.workers[w := k.(running := None)])
    case Replay(id) =>
      s.(rows := s.rows.(events := s.rows.events[id := ReplayedRow(s.rows.events[id], s.now)]))
    case Crash(w) => s.(workers := s.workers[w := Worker([], None)])
  }

  ghost predicate Initial(s: System) {
    s.rows == Table(map[], map[]) && s.workers == map[]
  }

  // states[0] -> steps[0] -> states[1] -> ... from empty tables.
  ghost predicate IsRun(cfg: Config, states: seq<System>, steps: seq<Step>) {
    && |states| == |steps| + 1
    && Initial(states[0])
    && forall i :: 0 <= i < |steps| ==>
      Enabled(cfg, states[i], steps[i]) && states[i + 1] == Apply(cfg, states[i], steps[i])
  }

  // ---- hypotheses on a run ----

  // No handler is still running after the lease of its claim.
  ghost predicate Timely(cfg: Config, s: System) {
    forall w :: Running(s, w) ==> s.now <= WorkerOf(s, w).running.value.claimedAt + cfg.Lease()
  }

  ghost predicate TimelyRun(cfg: Config, states: seq<System>) {
    forall i :: 0 <= i < |states| ==> Timely(cfg, states[i])
  }

  // No event is replayed while a worker runs its handler.
  ghost predicate Quiet(s: System, step: Step) {
    step.Replay? ==> forall w :: Running(s, w) ==> WorkerOf(s, w).running.value.event != step.id
  }

  ghost predicate QuietRun(states: seq<System>, steps: seq<Step>)
    requires |states| == |steps| + 1
  {
    forall i :: 0 <= i < |steps| ==> Quiet(states[i], steps[i])
  }

  ghost predicate NoReplay(steps: seq<Step>) {
    forall i :: 0 <= i < |steps| ==> !steps[i].Replay?
  }
}
