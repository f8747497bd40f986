// Two workers running one event at once, in every run: by which step it starts,
// which claim comes before it, and exactly when such a claim can be made.
module OutboxOverlaps {
  import opened Wrappers
  import opened EventTypes
  import opened OutboxRows
  import opened OutboxSystem
  import opened OutboxTheorems
  import opened OutboxLeases

  predicate RunsEvent(s: System, w: WorkerId, id: EventId) {
    Running(s, w) && WorkerOf(s, w).running.value.event == id
  }

  predicate Overlap(s: System, v: WorkerId, w: WorkerId, id: EventId) {
    v != w && RunsEvent(s, v, id) && RunsEvent(s, w, id)
  }

  // Worker w passes the check of a delivery whose event v is running.
  predicate BeginsBeside(s: System, step: Step, v: WorkerId, w: WorkerId, id: EventId) {
    && step == Begin(w) && v != w && RunsEvent(s, v, id)
    && WorkerOf(s, w).queue != [] && WorkerOf(s, w).queue[0].event == id
    && CheckDelivery(s.rows, id, w) == Proceed
  }

  // In every run, whatever its leases and replays, two workers come to run one
  // event exactly by the check of one of them on the event the other runs.
  lemma WhenDeliveriesOverlap(
    cfg: Config, states: seq<System>, steps: seq<Step>, i: nat, v: WorkerId, w: WorkerId, id: EventId)
    requires IsRun(cfg, states, steps) && i < |steps| && !Overlap(states[i], v, w, id)
    ensures Overlap(states[i + 1], v, w, id) <==>
      BeginsBeside(states[i], steps[i], v, w, id) || BeginsBeside(states[i], steps[i], w, v, id)
  {
    assert Enabled(cfg, states[i], steps[i]) && states[i + 1] == Apply(cfg, states[i], steps[i]);
    hide ClaimAll, FailDelivery, CompleteDelivery, ReplayedRow, EventRow;
  }

  // ---- the claim before an overlap ----

  // Worker w claims an event that v is running.
  predicate Takes(s: System, step: Step, v: WorkerId, w: WorkerId, id: EventId) {
    step.Claim? && step.worker == w && id in step.ids && v != w && RunsEvent(s, v, id)
  }

  ghost predicate Taken(states: seq<System>, steps: seq<Step>, i: nat, v: WorkerId, w: WorkerId, id: EventId)
    requires |states| == |steps| + 1 && i <= |steps|
  {
    exists j :: 0 <= j < i && Takes(states[j], steps[j], v, w, id)
  }

  ghost predicate LockedBeside(s: System, v: WorkerId, w: WorkerId, id: EventId) {
    && v != w && w != "" && RunsEvent(s, v, id)
    && id in s.rows.events && s.rows.events[id].lockedBy == w
  }

  // A running event gets another worker's lock only by that worker's claim.
  lemma LockStep(cfg: Config, s: System, step: Step, v: WorkerId, w: WorkerId, id: EventId)
    requires Sound(s) && Enabled(cfg, s, step) && LockedBeside(Apply(cfg, s, step), v, w, id)
    ensures LockedBeside(s, v, w, id) || Takes(s, step, v, w, id)
  {
    if step.Claim? {
      ClaimAllEvents(s.rows, step.ids, step.worker, s.now);
    } else if step.Fail? || step.Succeed? {
      FinalRows(cfg, s, step);
    } else if RunsEvent(s, v, id) {
      assert Holds(s, v, WorkerOf(s, v).running.value);
    }
  }

  lemma {:induction false} LockWasTaken(
    cfg: Config, states: seq<System>, steps: seq<Step>, i: nat, v: WorkerId, w: WorkerId, id: EventId)
    requires IsRun(cfg, states, steps) && i < |states| && LockedBeside(states[i], v, w, id)
    ensures Taken(states, steps, i, v, w, id)
  {
    hide Enabled, Apply, LockedBeside, Takes;
    if i == 0 {
      NothingRuns(cfg, states, steps, v, w, id);
    } else {
      SoundRun(cfg, states, steps, i - 1);
      LockStep(cfg, states[i - 1], steps[i - 1], v, w, id);
      if LockedBeside(states[i - 1], v, w, id) {
        LockWasTaken(cfg, states, steps, i - 1, v, w, id);
      }
    }
  }

  lemma NothingRuns(cfg: Config, states: seq<System>, steps: seq<Step>, v: WorkerId, w: WorkerId, id: EventId)
    requires IsRun(cfg, states, steps)
    ensures !LockedBeside(states[0], v, w, id) && !Overlap(states[0], v, w, id)
  {
  }

  // No two workers run one event unless one of them has claimed it while the
  // other was running it.
  lemma {:induction false} OverlapWasTaken(
    cfg: Config, states: seq<System>, steps: seq<Step>, i: nat, v: WorkerId, w: WorkerId, id: EventId)
    requires IsRun(cfg, states, steps) && i < |states| && Overlap(states[i], v, w, id)
    ensures Taken(states, steps, i, v, w, id) || Taken(states, steps, i, w, v, id)
  {
    hide Enabled, Apply, Overlap, Takes, LockedBeside;
    if i == 0 {
      NothingRuns(cfg, states, steps, v, w, id);
    } else if Overlap(states[i - 1], v, w, id) {
      OverlapWasTaken(cfg, states, steps, i - 1, v, w, id);
    } else {
      SoundRun(cfg, states, steps, i - 1);
      WhenDeliveriesOverlap(cfg, states, steps, i - 1, v, w, id);
      if BeginsBeside(states[i - 1], steps[i - 1], v, w, id) {
        BesideIsLocked(states[i - 1], steps[i - 1], v, w, id);
        LockWasTaken(cfg, states, steps, i - 1, v, w, id);
      } else {
        BesideIsLocked(states[i - 1], steps[i - 1], w, v, id);
        LockWasTaken(cfg, states, steps, i - 1, w, v, id);
      }
    }
  }

  lemma BesideIsLocked(s: System, step: Step, v: WorkerId, w: WorkerId, id: EventId)
    requires Sound(s) && BeginsBeside(s, step, v, w, id)
    ensures LockedBeside(s, v, w, id)
  {
    assert Holds(s, w, WorkerOf(s, w).queue[0]);
  }

  // ---- when a running event can be claimed ----

  // A leased event was available when it was claimed.
  ghost predicate LockedAvailable(s: System) {
    forall id :: id in s.rows.events && s.rows.events[id].lockedAt.Some? ==>
      s.rows.events[id].availableAt <= s.rows.events[id].lockedAt.value <= s.now
  }

  ghost predicate LocksHeld(s: System) {
    LocksMatch(s) && LockedAvailable(s)
  }

  lemma LocksHeldStep(cfg: Config, s: System, step: Step)
    requires Sound(s) && LocksHeld(s) && Enabled(cfg, s, step)
    ensures LocksHeld(Apply(cfg, s, step))
  {
    hide Sound, LocksHeld, Apply, Enabled;
    if step.Claim? {
      LocksHeldClaim(cfg, s, step.worker, step.ids);
    } else if step.Fail? || step.Succeed? {
      LocksHeldFinal(cfg, s, step);
    } else {
      LocksHeldOther(cfg, s, step);
    }
  }

  lemma LocksHeldClaim(cfg: Config, s: System, w: WorkerId, ids: seq<EventId>)
    requires Sound(s) && LocksHeld(s) && Enabled(cfg, s, Claim(w, ids))
    ensures LocksHeld(Apply(cfg, s, Claim(w, ids)))
  {
    LocksMatchClaim(cfg, s, w, ids);
    ClaimAllEvents(s.rows, ids, w, s.now);
    hide LocksMatch, ClaimAll, Sound;
    assert forall id :: id in ids ==> Ready(cfg, s.rows.events[id], s.now);
  }

  lemma TicketsNamed(s: System)
    requires Sound(s)
    ensures forall v, u :: Holds(s, v, u) ==> v != "" && u.event in s.rows.events
  {
  }

  lemma LocksHeldFinal(cfg: Config, s: System, step: Step)
    requires Sound(s) && LocksHeld(s) && Enabled(cfg, s, step) && (step.Fail? || step.Succeed?)
    ensures LocksHeld(Apply(cfg, s, step))
  {
    hide Sound, Apply, Enabled;
    TicketsNamed(s);
    FinalRows(cfg, s, step);
  }

  lemma LocksHeldOther(cfg: Config, s: System, step: Step)
    requires Sound(s) && LocksHeld(s) && Enabled(cfg, s, step) && !step.Claim? && !step.Fail? && !step.Succeed?
    ensures LocksHeld(Apply(cfg, s, step))
  {
    OtherTickets(cfg, s, step);
    OtherRows(cfg, s, step);
    hide Apply, Enabled, Sound;
  }

  lemma OtherTickets(cfg: Config, s: System, step: Step)
    requires Sound(s) && Enabled(cfg, s, step) && !step.Claim? && !step.Fail? && !step.Succeed?
    ensures forall v, u :: Holds(Apply(cfg, s, step), v, u) ==> Holds(s, v, u) && v != "" && u.event in s.rows.events
  {
    TicketsNamed(s);
    hide Sound;
  }

  // A row that stays locked stays as it was.
  lemma OtherRows(cfg: Config, s: System, step: Step)
    requires Enabled(cfg, s, step) && !step.Claim? && !step.Fail? && !step.Succeed?
    ensures var t := Apply(cfg, s, step);
      && s.now <= t.now && s.rows.events.Keys <= t.rows.events.Keys
      && forall id :: id in t.rows.events ==>
           || (id in s.rows.events && t.rows.events[id] == s.rows.events[id])
           || (t.rows.events[id].lockedAt.None? && t.rows.events[id].lockedBy == "")
  {
  }

  lemma {:induction false} LocksHeldRun(cfg: Config, states: seq<System>, steps: seq<Step>, i: nat)
    requires IsRun(cfg, states, steps) && i < |states|
    ensures LocksHeld(states[i])
  {
    if i > 0 {
      hide LocksHeld, Enabled, Apply;
      LocksHeldRun(cfg, states, steps, i - 1);
      SoundRun(cfg, states, steps, i - 1);
      LocksHeldStep(cfg, states[i - 1], steps[i - 1]);
    }
  }

  // The lease a running event is under is past, or its lock was cleared and it
  // is available: v's own lease, unless another worker has claimed it since.
  predicate LeaseIsOver(cfg: Config, s: System, v: WorkerId)
    requires Running(s, v) && WorkerOf(s, v).running.value.event in s.rows.events
  {
    var ticket := WorkerOf(s, v).running.value;
    var e := s.rows.events[ticket.event];
    if e.lockedBy == v then ticket.claimedAt + cfg.Lease() < s.now
    else if e.lockedAt.None? then e.availableAt <= s.now
    else e.lockedAt.value + cfg.Lease() < s.now
  }

  // In every run, the event a worker runs can be claimed again exactly when it
  // is open and its lease is past or its lock was cleared.
  lemma RunningReadyExactlyWhen(cfg: Config, states: seq<System>, steps: seq<Step>, i: nat, v: WorkerId)
    requires IsRun(cfg, states, steps) && i < |states| && Running(states[i], v)
    ensures var id := WorkerOf(states[i], v).running.value.event;
      && id in states[i].rows.events
      && (Ready(cfg, states[i].rows.events[id], states[i].now) <==>
            states[i].rows.events[id].Open() && LeaseIsOver(cfg, states[i], v))
  {
    SoundRun(cfg, states, steps, i);
    LocksHeldRun(cfg, states, steps, i);
    assert Holds(states[i], v, WorkerOf(states[i], v).running.value);
  }

  // Such a claim brings about an overlap at once: an idle worker can claim and
  // begin the event v runs exactly when its lease is over.
  lemma OverlapsExactlyWhenLeaseIsOver(
    cfg: Config, states: seq<System>, steps: seq<Step>, i: nat, v: WorkerId, w: WorkerId)
    requires IsRun(cfg, states, steps) && i < |states| && Running(states[i], v)
    requires w != v && w != "" && WorkerOf(states[i], w) == Worker([], None)
    ensures var s, id := states[i], WorkerOf(states[i], v).running.value.event;
      && id in s.rows.events
      && (Enabled(cfg, s, Claim(w, [id])) <==> s.rows.events[id].Open() && LeaseIsOver(cfg, s, v))
      && (Enabled(cfg, s, Claim(w, [id])) ==>
            var t := Apply(cfg, s, Claim(w, [id]));
            Enabled(cfg, t, Begin(w)) && Overlap(Apply(cfg, t, Begin(w)), v, w, id))
  {
    RunningReadyExactlyWhen(cfg, states, steps, i, v);
    SoundRun(cfg, states, steps, i);
    hide LeaseIsOver, Sound;
    var s, id := states[i], WorkerOf(states[i], v).running.value.event;
    assert id in [id];
    if Ready(cfg, s.rows.events[id], s.now) {
      TakingOverlaps(cfg, s, v, w, id);
    }
  }

  lemma TakingOverlaps(cfg: Config, s: System, v: WorkerId, w: WorkerId, id: EventId)
    requires Sound(s) && RunsEvent(s, v, id) && w != v && w != "" && WorkerOf(s, w) == Worker([], None)
    requires id in s.rows.events && Ready(cfg, s.rows.events[id], s.now)
    ensures Enabled(cfg, s, Claim(w, [id]))
    ensures var t := Apply(cfg, s, Claim(w, [id]));
      Enabled(cfg, t, Begin(w)) && Overlap(Apply(cfg, t, Begin(w)), v, w, id)
  {
    ClaimAllEvents(s.rows, [id], w, s.now);
    assert id in [id];
    assert Ticketed(s.rows, [id], s.now) == [Ticket(id, s.rows.events[id].attemptCount + 1, s.now)];
    hide Sound;
  }

  // ---- a replay during a delivery ----

  // Worker a claims and begins event 0, it is replayed, and worker b claims and
  // begins it, all at time 0.
  const REPLAY_STEPS: seq<Step> :=
    [Enqueue(0, ListingApproved, "k", 0), Claim("a", [0]), Begin("a"), Replay(0), Claim("b", [0]), Begin("b")]

  function ReplayStates(): seq<System> {
    var unclaimed := EventRow(ListingApproved, "k", 0, 0);
    var attempt := Attempt(0, None, false, "");
    var byA := Table(map[0 := ClaimedRow(unclaimed, "a", 0)], map[(0, 1) := attempt]);
    var replayed := Table(map[0 := ReplayedRow(byA.events[0], 0)], byA.attempts);
    var byB := Table(map[0 := ClaimedRow(replayed.events[0], "b", 0)], map[(0, 1) := attempt, (0, 2) := attempt]);
    var runningA := Worker([], Some(Ticket(0, 1, 0)));
    [System(Table(map[], map[]), map[], 0),
     System(Table(map[0 := unclaimed], map[]), map[], 0),
     System(byA, map["a" := Worker([Ticket(0, 1, 0)], None)], 0),
     System(byA, map["a" := runningA], 0),
     System(replayed, map["a" := runningA], 0),
     System(byB, map["a" := runningA, "b" := Worker([Ticket(0, 2, 0)], None)], 0),
     System(byB, map["a" := runningA, "b" := Worker([], Some(Ticket(0, 2, 0)))], 0)]
  }

  lemma ReplayFirstClaim(cfg: Config)
    ensures var states := ReplayStates();
      Enabled(cfg, states[1], REPLAY_STEPS[1]) && states[2] == Apply(cfg, states[1], REPLAY_STEPS[1])
  {
    var states := ReplayStates();
    assert ClaimAll(states[1].rows, [0], "a", 0) == ClaimOne(ClaimAll(states[1].rows, [], "a", 0), 0, "a", 0);
    assert Ticketed(states[1].rows, [0], 0) == [Ticket(0, 1, 0)];
  }

  lemma ReplaySecondClaim(cfg: Config)
    ensures var states := ReplayStates();
      Enabled(cfg, states[4], REPLAY_STEPS[4]) && states[5] == Apply(cfg, states[4], REPLAY_STEPS[4])
  {
    var states := ReplayStates();
    assert ClaimAll(states[4].rows, [0], "b", 0) == ClaimOne(ClaimAll(states[4].rows, [], "b", 0), 0, "b", 0);
    assert Ticketed(states[4].rows, [0], 0) == [Ticket(0, 2, 0)];
  }

  lemma ReplayBegins(cfg: Config)
    ensures var states := ReplayStates();
      && Enabled(cfg, states[2], REPLAY_STEPS[2]) && states[3] == Apply(cfg, states[2], REPLAY_STEPS[2])
      && Enabled(cfg, states[5], REPLAY_STEPS[5]) && states[6] == Apply(cfg, states[5], REPLAY_STEPS[5])
  {
    var states := ReplayStates();
    assert [Ticket(0, 1, 0)][1..] == [] && [Ticket(0, 2, 0)][1..] == [];
    assert states[2].workers["a" := states[3].workers["a"]] == states[3].workers;
    assert states[5].workers["b" := states[6].workers["b"]] == states[6].workers;
  }

  lemma ReplayOthers(cfg: Config)
    ensures var states := ReplayStates();
      && Enabled(cfg, states[0], REPLAY_STEPS[0]) && states[1] == Apply(cfg, states[0], REPLAY_STEPS[0])
      && Enabled(cfg, states[3], REPLAY_STEPS[3]) && states[4] == Apply(cfg, states[3], REPLAY_STEPS[3])
  {
  }

  lemma ReplayIsRun(cfg: Config)
    ensures IsRun(cfg, ReplayStates(), REPLAY_STEPS)
  {
    ReplayFirstClaim(cfg);
    ReplaySecondClaim(cfg);
    ReplayBegins(cfg);
    ReplayOthers(cfg);
    hide Enabled, Apply;
    var states := ReplayStates();
    forall i | 0 <= i < |REPLAY_STEPS|
      ensures Enabled(cfg, states[i], REPLAY_STEPS[i]) && states[i + 1] == Apply(cfg, states[i], REPLAY_STEPS[i])
    {
      assert i == 0 || i == 1 || i == 2 || i == 3 || i == 4 || i == 5;
    }
  }

  ghost predicate TimelyOverlap(cfg: Config, states: seq<System>, steps: seq<Step>) {
    && IsRun(cfg, states, steps) && TimelyRun(cfg, states)
    && exists v, w, id :: Overlap(states[|steps|], v, w, id)
  }

  // Deliveries that all end within their leases do not suffice: with a replay
  // during a delivery two workers run one event, under every lease that lets a
  // handler run at all.
  lemma TimelyDeliveriesOverlapExactlyWhen(cfg: Config)
    ensures (exists states, steps :: TimelyOverlap(cfg, states, steps)) <==> cfg.leaseSeconds >= 0
  {
    if cfg.leaseSeconds >= 0 {
      ReplayIsRun(cfg);
      var states := ReplayStates();
      assert Overlap(states[6], "a", "b", 0);
      assert TimelyRun(cfg, states) by {
        forall i | 0 <= i < |states|
          ensures Timely(cfg, states[i])
        {
          assert i == 0 || i == 1 || i == 2 || i == 3 || i == 4 || i == 5 || i == 6;
        }
      }
      assert TimelyOverlap(cfg, states, REPLAY_STEPS);
    } else {
      forall states, steps | TimelyOverlap(cfg, states, steps)
        ensures false
      {
        var s := states[|steps|];
        var v, w, id :| Overlap(s, v, w, id);
        SoundRun(cfg, states, steps, |steps|);
        assert Timely(cfg, s) && Holds(s, v, WorkerOf(s, v).running.value);
      }
    }
  }
}
