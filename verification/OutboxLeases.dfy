// Deliveries that end within their leases: mutual exclusion of handlers, one
// terminal state per event and at most one successful attempt. A witness run
// shows the lease hypothesis is needed.
module OutboxLeases {
  import opened Wrappers
  import opened EventTypes
  import opened Sequences
  import opened OutboxRows
  import opened OutboxSystem
  import opened OutboxTheorems

  // A lock in a worker's name is the lock its ticket for that event set.
  ghost predicate LocksMatch(s: System) {
    forall w, ticket ::
      Holds(s, w, ticket) && ticket.event in s.rows.events && s.rows.events[ticket.event].lockedBy == w ==>
      && s.rows.events[ticket.event].lockedAt == Some(ticket.claimedAt)
      && s.rows.events[ticket.event].attemptCount == ticket.number
  }

  // A worker runs only handlers of open events locked in its own name.
  ghost predicate RunnersLock(s: System) {
    forall w :: Running(s, w) ==>
      var id := WorkerOf(s, w).running.value.event;
      id in s.rows.events && s.rows.events[id].Open() && s.rows.events[id].lockedBy == w
  }

  ghost predicate OneTerminalState(t: Table) {
    forall id :: id in t.events ==> t.events[id].processedAt.None? || t.events[id].failedAt.None?
  }

  // Only the last attempt of a processed event has succeeded.
  ghost predicate SuccessIsLast(t: Table) {
    forall id, n :: (id, n) in t.attempts && t.attempts[(id, n)].succeeded ==>
      id in t.events && t.events[id].processedAt.Some? && n == t.events[id].attemptCount
  }

  // A processed event has a successful last attempt.
  ghost predicate ProcessedSucceeded(t: Table) {
    forall id :: id in t.events && t.events[id].processedAt.Some? ==>
      (id, t.events[id].attemptCount) in t.attempts && t.attempts[(id, t.events[id].attemptCount)].succeeded
  }

  ghost predicate Settling(t: Table) {
    OneTerminalState(t) && SuccessIsLast(t) && ProcessedSucceeded(t)
  }

  ghost predicate LeaseKept(s: System) {
    Sound(s) && LocksMatch(s) && RunnersLock(s) && Settling(s.rows)
  }

  lemma SettlingClaim(t: Table, ids: seq<EventId>, w: WorkerId, now: Time)
    requires Numbered(t) && Settling(t) && Distinct(ids)
    requires forall id :: id in ids ==> id in t.events && t.events[id].Open()
    ensures Settling(ClaimAll(t, ids, w, now))
  {
    ClaimAllRows(t, ids, w, now);
    var u := ClaimAll(t, ids, w, now);
    forall id, n | (id, n) in u.attempts && u.attempts[(id, n)].succeeded
      ensures id in u.events && u.events[id].processedAt.Some? && n == u.events[id].attemptCount
    {
      assert (id, n) in t.attempts;
    }
    forall id | id in u.events && u.events[id].processedAt.Some?
      ensures (id, u.events[id].attemptCount) in u.attempts && u.attempts[(id, u.events[id].attemptCount)].succeeded
    {
      assert id !in ids;
    }
  }

  // A running handler's event is not ready for another claim within its lease.
  lemma RunningNotReady(cfg: Config, s: System, v: WorkerId)
    requires LeaseKept(s) && Timely(cfg, s) && Running(s, v)
    ensures var id := WorkerOf(s, v).running.value.event; id in s.rows.events && !Ready(cfg, s.rows.events[id], s.now)
  {
    assert Holds(s, v, WorkerOf(s, v).running.value);
  }

  lemma TicketOf(t: Table, ids: seq<EventId>, now: Time, ticket: Ticket)
    requires (forall id :: id in ids ==> id in t.events) && ticket in Ticketed(t, ids, now)
    ensures ticket.event in ids && ticket.claimedAt == now && ticket.number == t.events[ticket.event].attemptCount + 1
  {
    var i :| 0 <= i < |ids| && ticket == Ticketed(t, ids, now)[i];
    assert ids[i] in ids;
  }

  lemma LocksMatchClaim(cfg: Config, s: System, w: WorkerId, ids: seq<EventId>)
    requires Sound(s) && LocksMatch(s) && Enabled(cfg, s, Claim(w, ids))
    ensures LocksMatch(Apply(cfg, s, Claim(w, ids)))
  {
    ClaimAllEvents(s.rows, ids, w, s.now);
    var t := Apply(cfg, s, Claim(w, ids));
    forall v, ticket | Holds(t, v, ticket) && ticket.event in t.rows.events && t.rows.events[ticket.event].lockedBy == v
      ensures t.rows.events[ticket.event].lockedAt == Some(ticket.claimedAt)
      ensures t.rows.events[ticket.event].attemptCount == ticket.number
    {
      if v == w {
        TicketOf(s.rows, ids, s.now, ticket);
      } else {
        assert Holds(s, v, ticket);
        assert ticket.event !in ids;
      }
    }
  }

  lemma RunnersLockClaim(cfg: Config, s: System, w: WorkerId, ids: seq<EventId>)
    requires LeaseKept(s) && Timely(cfg, s) && Enabled(cfg, s, Claim(w, ids))
    ensures RunnersLock(Apply(cfg, s, Claim(w, ids)))
  {
    ClaimAllEvents(s.rows, ids, w, s.now);
    var t := Apply(cfg, s, Claim(w, ids));
    forall v | Running(t, v)
      ensures var id := WorkerOf(t, v).running.value.event;
        id in t.rows.events && t.rows.events[id].Open() && t.rows.events[id].lockedBy == v
    {
      assert v != w && Running(s, v);
      RunningNotReady(cfg, s, v);
    }
  }

  lemma LeaseClaim(cfg: Config, s: System, w: WorkerId, ids: seq<EventId>)
    requires LeaseKept(s) && Timely(cfg, s) && Enabled(cfg, s, Claim(w, ids))
    ensures LeaseKept(Apply(cfg, s, Claim(w, ids)))
  {
    ClaimStep(cfg, s, w, ids);
    SettlingClaim(s.rows, ids, w, s.now);
    LocksMatchClaim(cfg, s, w, ids);
    RunnersLockClaim(cfg, s, w, ids);
  }

  // Under the invariant two different workers never run the same event.
  lemma RunnersDiffer(s: System, v: WorkerId, w: WorkerId)
    requires RunnersLock(s) && Running(s, v) && Running(s, w) && v != w
    ensures WorkerOf(s, v).running.value.event != WorkerOf(s, w).running.value.event
  {
  }

  lemma SettlingFinal(cfg: Config, t: Table, id: EventId, errorType: string, now: Time)
    requires Numbered(t) && Settling(t) && id in t.events && t.events[id].Open() && t.events[id].attemptCount >= 1
    ensures var f := FailDelivery(cfg, t, id, errorType, now); f.Some? && Settling(f.value)
    ensures var c := CompleteDelivery(t, id, now); c.Some? && Settling(c.value)
  {
    FinalisingKeepsNumbering(cfg, t, id, errorType, now);
  }

  lemma FinalSettles(cfg: Config, s: System, step: Step)
    requires LeaseKept(s) && Enabled(cfg, s, step) && (step.Fail? || step.Succeed?)
    ensures Settling(Apply(cfg, s, step).rows)
  {
    var ticket := WorkerOf(s, step.worker).running.value;
    assert Holds(s, step.worker, ticket);
    hide Settling, FailDelivery, CompleteDelivery;
    SettlingFinal(cfg, s.rows, ticket.event, if step.Fail? then step.errorType else "", s.now);
  }

  lemma LeaseFinal(cfg: Config, s: System, step: Step)
    requires LeaseKept(s) && Enabled(cfg, s, step) && (step.Fail? || step.Succeed?)
    ensures LeaseKept(Apply(cfg, s, step))
  {
    hide Sound, Settling, Apply, Enabled;
    FinalStep(cfg, s, step);
    FinalRows(cfg, s, step);
    FinalSettles(cfg, s, step);
    FinalLocks(cfg, s, step);
  }

  lemma FinalLocks(cfg: Config, s: System, step: Step)
    requires LeaseKept(s) && Enabled(cfg, s, step) && (step.Fail? || step.Succeed?)
    ensures LocksMatch(Apply(cfg, s, step)) && RunnersLock(Apply(cfg, s, step))
  {
    FinalRows(cfg, s, step);
    assert step.worker != "" by {
      assert Holds(s, step.worker, WorkerOf(s, step.worker).running.value);
    }
    assert forall v, ticket :: Holds(s, v, ticket) ==> v != "" && ticket.event in s.rows.events;
    hide Sound, Settling, Apply, FailDelivery, CompleteDelivery;
    var t := Apply(cfg, s, step);
    forall v | Running(t, v)
      ensures var id := WorkerOf(t, v).running.value.event;
        id in t.rows.events && t.rows.events[id].Open() && t.rows.events[id].lockedBy == v
    {
      assert v != step.worker && Running(s, v);
      RunnersDiffer(s, v, step.worker);
    }
  }

  lemma LeaseEnqueue(cfg: Config, s: System, step: Step)
    requires LeaseKept(s) && Enabled(cfg, s, step) && step.Enqueue?
    ensures LeaseKept(Apply(cfg, s, step))
  {
    OtherStep(cfg, s, step);
    EnqueueSettles(cfg, s, step);
    EnqueueLocks(cfg, s, step);
    hide Sound, Settling, LocksMatch, RunnersLock, Apply, Enabled;
  }

  lemma EnqueueLocks(cfg: Config, s: System, step: Step)
    requires LeaseKept(s) && Enabled(cfg, s, step) && step.Enqueue?
    ensures LocksMatch(Apply(cfg, s, step)) && RunnersLock(Apply(cfg, s, step))
  {
    assert forall v, u :: Holds(s, v, u) ==> u.event in s.rows.events;
    hide Sound, Settling;
    var t := Apply(cfg, s, step);
    assert forall v, u :: Holds(t, v, u) ==> Holds(s, v, u) && u.event != step.id;
    assert forall v :: Running(t, v) ==> Running(s, v) && WorkerOf(s, v) == WorkerOf(t, v);
  }

  lemma EnqueueSettles(cfg: Config, s: System, step: Step)
    requires LeaseKept(s) && Enabled(cfg, s, step) && step.Enqueue?
    ensures Settling(Apply(cfg, s, step).rows)
  {
    assert forall n :: (step.id, n) !in s.rows.attempts;
  }

  lemma LeaseReplay(cfg: Config, s: System, step: Step)
    requires LeaseKept(s) && Quiet(s, step) && Enabled(cfg, s, step) && step.Replay?
    ensures LeaseKept(Apply(cfg, s, step))
  {
    OtherStep(cfg, s, step);
    hide Sound;
    var t := Apply(cfg, s, step);
    if s.rows.events[step.id].processedAt.Some? {
      assert t.rows.events == s.rows.events;
      assert t == s;
    } else {
      assert Settling(t.rows);
      assert forall v, u :: Holds(t, v, u) ==> Holds(s, v, u);
      assert forall v :: Running(t, v) ==> Running(s, v) && WorkerOf(s, v) == WorkerOf(t, v);
    }
  }

  // Steps that leave both tables alone.
  lemma LeaseWorker(cfg: Config, s: System, step: Step)
    requires LeaseKept(s) && Enabled(cfg, s, step) && (step.Tick? || step.Begin? || step.Crash?)
    ensures LeaseKept(Apply(cfg, s, step))
  {
    OtherStep(cfg, s, step);
    var t := Apply(cfg, s, step);
    assert forall v, u :: Holds(t, v, u) ==> Holds(s, v, u);
    assert forall v :: Running(t, v) ==> Running(s, v) || (step.Begin? && v == step.worker);
  }

  lemma LeaseStep(cfg: Config, s: System, step: Step)
    requires LeaseKept(s) && Timely(cfg, s) && Quiet(s, step) && Enabled(cfg, s, step)
    ensures LeaseKept(Apply(cfg, s, step))
  {
    if step.Claim? {
      LeaseClaim(cfg, s, step.worker, step.ids);
    } else if step.Fail? || step.Succeed? {
      LeaseFinal(cfg, s, step);
    } else if step.Enqueue? {
      LeaseEnqueue(cfg, s, step);
    } else if step.Replay? {
      LeaseReplay(cfg, s, step);
    } else {
      LeaseWorker(cfg, s, step);
    }
  }

  lemma {:induction false} LeaseRun(cfg: Config, states: seq<System>, steps: seq<Step>, i: nat)
    requires IsRun(cfg, states, steps) && TimelyRun(cfg, states) && QuietRun(states, steps) && i < |states|
    ensures LeaseKept(states[i])
  {
    if i > 0 {
      LeaseRun(cfg, states, steps, i - 1);
      LeaseStep(cfg, states[i - 1], steps[i - 1]);
    }
  }

  // If every delivery ends within the lease of its claim and no event is
  // replayed during its delivery, no two workers ever run handlers of the same
  // event at the same time.
  lemma DeliveriesNeverOverlap(cfg: Config, states: seq<System>, steps: seq<Step>, i: nat, v: WorkerId, w: WorkerId)
    requires IsRun(cfg, states, steps) && TimelyRun(cfg, states) && QuietRun(states, steps) && i < |states|
    requires v != w && Running(states[i], v) && Running(states[i], w)
    ensures WorkerOf(states[i], v).running.value.event != WorkerOf(states[i], w).running.value.event
  {
    LeaseRun(cfg, states, steps, i);
    RunnersDiffer(states[i], v, w);
  }

  // Under the same hypotheses no event is both processed and failed; an event
  // has a successful attempt exactly when it is processed, only one, its last.
  lemma OneOutcomePerEvent(cfg: Config, states: seq<System>, steps: seq<Step>, i: nat, id: EventId)
    requires IsRun(cfg, states, steps) && TimelyRun(cfg, states) && QuietRun(states, steps) && i < |states|
    requires id in states[i].rows.events
    ensures !(states[i].rows.events[id].processedAt.Some? && states[i].rows.events[id].failedAt.Some?)
    ensures forall n :: (id, n) in states[i].rows.attempts ==>
      (states[i].rows.attempts[(id, n)].succeeded <==>
        states[i].rows.events[id].processedAt.Some? && n == states[i].rows.events[id].attemptCount)
  {
    LeaseRun(cfg, states, steps, i);
  }

  ghost predicate Clashes(t: Table, id: EventId) {
    id in t.events && t.events[id].processedAt.Some? && t.events[id].failedAt.Some?
  }

  // The worker's last transaction finds its event already closed the other
  // way: processed when its attempts are used up, or failed when it succeeds.
  ghost predicate ClosesClosed(cfg: Config, s: System, step: Step, id: EventId) {
    && id in s.rows.events
    && ((step.Fail? && Running(s, step.worker) && WorkerOf(s, step.worker).running.value.event == id
         && s.rows.events[id].processedAt.Some? && s.rows.events[id].attemptCount >= cfg.maxAttempts)
        || (step.Succeed? && Running(s, step.worker) && WorkerOf(s, step.worker).running.value.event == id
            && s.rows.events[id].failedAt.Some?))
  }

  lemma ClaimNeverClashes(cfg: Config, s: System, w: WorkerId, ids: seq<EventId>, id: EventId)
    requires Sound(s) && Enabled(cfg, s, Claim(w, ids))
    ensures Clashes(Apply(cfg, s, Claim(w, ids)).rows, id) <==> Clashes(s.rows, id)
  {
    ClaimAllEvents(s.rows, ids, w, s.now);
  }

  // In every run, whatever its leases and replays, an event becomes both
  // processed and failed exactly by a delivery finalised on an event already
  // closed the other way.
  lemma WhenTerminalStatesClash(cfg: Config, states: seq<System>, steps: seq<Step>, i: nat, id: EventId)
    requires IsRun(cfg, states, steps) && i < |steps| && !Clashes(states[i].rows, id)
    ensures Clashes(states[i + 1].rows, id) <==> ClosesClosed(cfg, states[i], steps[i], id)
  {
    SoundRun(cfg, states, steps, i);
    var s, step := states[i], steps[i];
    assert Enabled(cfg, s, step) && states[i + 1] == Apply(cfg, s, step);
    if step.Claim? {
      ClaimNeverClashes(cfg, s, step.worker, step.ids, id);
    } else if step.Fail? || step.Succeed? {
      FinalClash(cfg, s, step, id);
    }
  }

  lemma FinalClash(cfg: Config, s: System, step: Step, id: EventId)
    requires Enabled(cfg, s, step) && (step.Fail? || step.Succeed?) && !Clashes(s.rows, id)
    ensures Clashes(Apply(cfg, s, step).rows, id) <==> ClosesClosed(cfg, s, step, id)
  {
    hide SafeError, RetrySeconds;
  }

  // A run in which worker a claims and begins event 0, its lease passes, and
  // worker b claims and begins the same event.
  function Overrun(cfg: Config): Time {
    if cfg.Lease() >= 0 then cfg.Lease() + 1 else 0
  }

  function OverrunSteps(cfg: Config): seq<Step> {
    [Enqueue(0, ListingApproved, "k", 0), Claim("a", [0]), Begin("a"), Tick(Overrun(cfg)), Claim("b", [0]), Begin("b")]
  }

  function OverrunStates(cfg: Config): seq<System> {
    var late := Overrun(cfg);
    var unclaimed := EventRow(ListingApproved, "k", 0, 0);
    var byA := Table(map[0 := ClaimedRow(unclaimed, "a", 0)], map[(0, 1) := Attempt(0, None, false, "")]);
    var byB := Table(map[0 := ClaimedRow(byA.events[0], "b", late)],
                     map[(0, 1) := Attempt(0, None, false, ""), (0, 2) := Attempt(late, None, false, "")]);
    var queuedA := Worker([Ticket(0, 1, 0)], None);
    var runningA := Worker([], Some(Ticket(0, 1, 0)));
    var queuedB := Worker([Ticket(0, 2, late)], None);
    var runningB := Worker([], Some(Ticket(0, 2, late)));
    [System(Table(map[], map[]), map[], 0),
     System(Table(map[0 := unclaimed], map[]), map[], 0),
     System(byA, map["a" := queuedA], 0),
     System(byA, map["a" := runningA], 0),
     System(byA, map["a" := runningA], late),
     System(byB, map["a" := runningA, "b" := queuedB], late),
     System(byB, map["a" := runningA, "b" := runningB], late)]
  }

  lemma OverrunFirstClaim(cfg: Config)
    ensures
      var states := OverrunStates(cfg);
      var steps := OverrunSteps(cfg);
      Enabled(cfg, states[1], steps[1]) && states[2] == Apply(cfg, states[1], steps[1])
  {
    var states := OverrunStates(cfg);
    assert ClaimAll(states[1].rows, [0], "a", 0) == ClaimOne(ClaimAll(states[1].rows, [], "a", 0), 0, "a", 0);
    assert Ticketed(states[1].rows, [0], 0) == [Ticket(0, 1, 0)];
  }

  lemma OverrunSecondClaim(cfg: Config)
    ensures
      var states := OverrunStates(cfg);
      var steps := OverrunSteps(cfg);
      Enabled(cfg, states[4], steps[4]) && states[5] == Apply(cfg, states[4], steps[4])
  {
    var states := OverrunStates(cfg);
    var late := Overrun(cfg);
    assert ClaimAll(states[4].rows, [0], "b", late) == ClaimOne(ClaimAll(states[4].rows, [], "b", late), 0, "b", late);
    assert Ticketed(states[4].rows, [0], late) == [Ticket(0, 2, late)];
  }

  lemma OverrunBegins(cfg: Config)
    ensures
      var states := OverrunStates(cfg);
      var steps := OverrunSteps(cfg);
      && Enabled(cfg, states[2], steps[2]) && states[3] == Apply(cfg, states[2], steps[2])
      && Enabled(cfg, states[5], steps[5]) && states[6] == Apply(cfg, states[5], steps[5])
  {
    var states := OverrunStates(cfg);
    var late := Overrun(cfg);
    assert [Ticket(0, 1, 0)][1..] == [] && [Ticket(0, 2, late)][1..] == [];
    assert states[2].workers["a" := states[3].workers["a"]] == states[3].workers;
    assert states[5].workers["b" := states[6].workers["b"]] == states[6].workers;
  }

  // Without the lease hypothesis handlers do overlap: for every configuration
  // there is a run, free of replays, that ends with two workers running one event.
  lemma OverrunOverlaps(cfg: Config)
    ensures IsRun(cfg, OverrunStates(cfg), OverrunSteps(cfg)) && NoReplay(OverrunSteps(cfg))
    ensures var last := OverrunStates(cfg)[6];
      && Running(last, "a") && Running(last, "b")
      && WorkerOf(last, "a").running.value.event == WorkerOf(last, "b").running.value.event
  {
    OverrunFirstClaim(cfg);
    OverrunSecondClaim(cfg);
    OverrunBegins(cfg);
    var states := OverrunStates(cfg);
    var steps := OverrunSteps(cfg);
    assert Enabled(cfg, states[0], steps[0]) && states[1] == Apply(cfg, states[0], steps[0]);
    assert Enabled(cfg, states[3], steps[3]) && states[4] == Apply(cfg, states[3], steps[3]);
    forall i | 0 <= i < |steps|
      ensures Enabled(cfg, states[i], steps[i]) && states[i + 1] == Apply(cfg, states[i], steps[i])
    {
      assert i == 0 || i == 1 || i == 2 || i == 3 || i == 4 || i == 5;
    }
  }
}
