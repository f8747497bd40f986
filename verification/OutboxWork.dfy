// Work under interference: what any number of workers can still do to the
// table, and what one worker counts in a batch.
module OutboxWork {
  import opened Wrappers
  import opened Sums
  import opened OutboxRows
  import opened OutboxServices
  import opened OutboxSystem
  import opened OutboxTheorems
  import opened OutboxLeases
  import opened OutboxBounds

  // ---- the deliveries left ----

  // The deliveries an event may still take, the claimed one included.
  function LeftOf(cfg: Config, e: Event): int {
    if e.Open() then Limit(cfg) - e.attemptCount + (if e.lockedAt.Some? then 1 else 0) else 0
  }

  ghost function LeftByEvent(cfg: Config, t: Table): map<EventId, int> {
    map id | id in t.events :: LeftOf(cfg, t.events[id])
  }

  ghost function Left(cfg: Config, t: Table): int {
    Total(LeftByEvent(cfg, t))
  }

  predicate Finalises(step: Step) {
    step.Fail? || step.Succeed?
  }

  lemma LeftNonNegative(cfg: Config, s: System)
    requires Bounded(cfg, s)
    ensures Left(cfg, s.rows) >= 0
  {
    forall id | id in s.rows.events
      ensures LeftOf(cfg, s.rows.events[id]) >= 0
    {
      assert WithinLimit(cfg, s, id);
    }
    TotalNonNegative(LeftByEvent(cfg, s.rows));
  }

  // A claim uses up an attempt and takes the lock: as much is left as before.
  lemma ClaimKeepsLeft(cfg: Config, s: System, w: WorkerId, ids: seq<EventId>)
    requires Bounded(cfg, s) && Prompt(cfg, s) && Enabled(cfg, s, Claim(w, ids)) && Numbered(s.rows)
    ensures Left(cfg, Apply(cfg, s, Claim(w, ids)).rows) == Left(cfg, s.rows)
  {
    ClaimAllEvents(s.rows, ids, w, s.now);
    hide LeaseKept, Numbered, WithinLimit, Prompt;
    var t := Apply(cfg, s, Claim(w, ids));
    forall id | id in s.rows.events
      ensures LeftOf(cfg, t.rows.events[id]) == LeftOf(cfg, s.rows.events[id])
    {
      if id in ids && s.rows.events[id].lockedAt.Some? {
        LockedNotReady(cfg, s, id);
      }
    }
    assert LeftByEvent(cfg, t.rows) == LeftByEvent(cfg, s.rows);
  }

  // The last transaction of a delivery changes one open row, and less is left of it.
  lemma FinalRowLeaves(cfg: Config, s: System, step: Step)
    requires Bounded(cfg, s) && Enabled(cfg, s, step) && Finalises(step)
    ensures Running(s, step.worker)
    ensures var t, done := Apply(cfg, s, step), WorkerOf(s, step.worker).running.value.event;
      && done in s.rows.events && t.rows.events == s.rows.events[done := t.rows.events[done]]
      && LeftOf(cfg, t.rows.events[done]) < LeftOf(cfg, s.rows.events[done])
  {
    var done := WorkerOf(s, step.worker).running.value.event;
    assert Holds(s, step.worker, WorkerOf(s, step.worker).running.value);
    assert WithinLimit(cfg, s, done);
    hide SafeError, RetrySeconds, LockHeld, Settling, LocksMatch;
  }

  lemma FinalLowersLeft(cfg: Config, s: System, step: Step)
    requires Bounded(cfg, s) && Enabled(cfg, s, step) && Finalises(step)
    ensures Left(cfg, Apply(cfg, s, step).rows) < Left(cfg, s.rows)
  {
    hide Bounded, Enabled, Apply, LeftOf;
    FinalRowLeaves(cfg, s, step);
    var t, done := Apply(cfg, s, step), WorkerOf(s, step.worker).running.value.event;
    assert LeftByEvent(cfg, t.rows) == LeftByEvent(cfg, s.rows)[done := LeftOf(cfg, t.rows.events[done])];
    TotalUpdate(LeftByEvent(cfg, s.rows), done, LeftOf(cfg, t.rows.events[done]));
  }

  lemma EnqueueAddsLeft(cfg: Config, s: System, step: Step)
    requires Enabled(cfg, s, step) && step.Enqueue?
    ensures Left(cfg, Apply(cfg, s, step).rows) == Left(cfg, s.rows) + Limit(cfg)
  {
    var t := Apply(cfg, s, step);
    assert LeftByEvent(cfg, t.rows) == LeftByEvent(cfg, s.rows)[step.id := Limit(cfg)];
    TotalUpdate(LeftByEvent(cfg, s.rows), step.id, Limit(cfg));
  }

  // What each step of such a run does to the deliveries left.
  lemma StepLeaves(cfg: Config, s: System, step: Step)
    requires Bounded(cfg, s) && Prompt(cfg, s) && Numbered(s.rows) && Enabled(cfg, s, step) && !step.Replay?
      && !step.Crash?
    ensures var left, after := Left(cfg, s.rows), Left(cfg, Apply(cfg, s, step).rows);
      && (Finalises(step) ==> after < left)
      && (step.Enqueue? ==> after == left + Limit(cfg))
      && (!Finalises(step) && !step.Enqueue? ==> after == left)
  {
    hide Left;
    if step.Claim? {
      ClaimKeepsLeft(cfg, s, step.worker, step.ids);
    } else if Finalises(step) {
      FinalLowersLeft(cfg, s, step);
    } else if step.Enqueue? {
      EnqueueAddsLeft(cfg, s, step);
    }
  }

  // How many of the first n steps are of a kind.
  function Finalised(steps: seq<Step>, n: nat): nat
    requires n <= |steps|
  {
    if n == 0 then 0 else Finalised(steps, n - 1) + if Finalises(steps[n - 1]) then 1 else 0
  }

  function Enqueued(steps: seq<Step>, n: nat): nat
    requires n <= |steps|
  {
    if n == 0 then 0 else Enqueued(steps, n - 1) + if steps[n - 1].Enqueue? then 1 else 0
  }

  ghost predicate PromptRun(cfg: Config, states: seq<System>, steps: seq<Step>) {
    && IsRun(cfg, states, steps) && NoReplay(steps) && NoCrash(steps)
    && forall i :: 0 <= i < |states| ==> Prompt(cfg, states[i])
  }

  // With no replay and no abandoned lease, under any interleaving of workers,
  // each finished delivery lowers what is left, nothing but a new event raises
  // it, and so no more deliveries finish than the events allow.
  lemma {:induction false} DeliveriesAreBounded(cfg: Config, states: seq<System>, steps: seq<Step>, i: nat)
    requires PromptRun(cfg, states, steps) && i < |states|
    ensures 0 <= Left(cfg, states[i].rows)
    ensures Finalised(steps, i) + Left(cfg, states[i].rows) <= Enqueued(steps, i) * Limit(cfg)
    ensures i < |steps| && Finalises(steps[i]) ==> Left(cfg, states[i + 1].rows) < Left(cfg, states[i].rows)
    ensures i < |steps| && !Finalises(steps[i]) && !steps[i].Enqueue? ==>
      Left(cfg, states[i + 1].rows) == Left(cfg, states[i].rows)
  {
    hide Bounded, Left, Enabled, Apply;
    BoundedRun(cfg, states, steps, i);
    LeftNonNegative(cfg, states[i]);
    if i < |steps| {
      StepOfRun(cfg, states, steps, i);
    }
    if i == 0 {
      NothingLeft(cfg, states[0]);
    } else {
      DeliveriesAreBounded(cfg, states, steps, i - 1);
      StepOfRun(cfg, states, steps, i - 1);
    }
  }

  lemma NothingLeft(cfg: Config, s: System)
    requires Initial(s)
    ensures Left(cfg, s.rows) == 0
  {
    assert LeftByEvent(cfg, s.rows) == map[];
  }

  lemma StepOfRun(cfg: Config, states: seq<System>, steps: seq<Step>, i: nat)
    requires PromptRun(cfg, states, steps) && i < |steps|
    ensures var left, after := Left(cfg, states[i].rows), Left(cfg, states[i + 1].rows);
      && (Finalises(steps[i]) ==> after < left)
      && (steps[i].Enqueue? ==> after == left + Limit(cfg))
      && (!Finalises(steps[i]) && !steps[i].Enqueue? ==> after == left)
  {
    hide Bounded, Left, Enabled, Apply;
    BoundedRun(cfg, states, steps, i);
    SoundRun(cfg, states, steps, i);
    StepLeaves(cfg, states[i], steps[i]);
  }

  // ---- one worker's batch ----

  // What a step adds to the counts of worker w's batch.
  function Counted(cfg: Config, s: System, step: Step, w: WorkerId, c: Counts): Counts {
    match step
    case Begin(v) =>
      if v != w || WorkerOf(s, w).queue == [] then c
      else
        var begun := c.(claimed := c.claimed + 1);
        if CheckDelivery(s.rows, WorkerOf(s, w).queue[0].event, w) == Skip then Count(begun, Skipped) else begun
    case Fail(v, _) =>
      if v != w || !Running(s, w) || WorkerOf(s, w).running.value.event !in s.rows.events then c
      else Count(c, FailedOutcome(cfg, s.rows.events[WorkerOf(s, w).running.value.event]))
    case Succeed(v) => if v != w then c else Count(c, Processed)
    case _ => c
  }

  // The counts of worker w over the steps from i to j.
  function Tally(cfg: Config, states: seq<System>, steps: seq<Step>, w: WorkerId, i: nat, j: nat): Counts
    requires j <= |steps| <= |states|
    decreases j
  {
    if j <= i then Counts(0, 0, 0, 0, 0)
    else Counted(cfg, states[j - 1], steps[j - 1], w, Tally(cfg, states, steps, w, i, j - 1))
  }

  // Worker w neither claims again nor crashes in the steps from i to j.
  ghost predicate OneBatch(steps: seq<Step>, w: WorkerId, i: nat, j: nat)
    requires j <= |steps|
  {
    forall k :: i <= k < j ==> !(steps[k].Claim? && steps[k].worker == w) && !(steps[k].Crash? && steps[k].worker == w)
  }

  // Every event the batch has started on has an outcome or is being delivered.
  ghost predicate Tallied(k: Worker, size: nat, c: Counts) {
    && c.claimed + |k.queue| == size
    && c.claimed == c.processed + c.retry + c.failed + c.skipped + (if k.running.Some? then 1 else 0)
  }

  lemma TallyStep(cfg: Config, s: System, step: Step, w: WorkerId, size: nat, c: Counts)
    requires Sound(s) && Enabled(cfg, s, step) && Tallied(WorkerOf(s, w), size, c)
    requires !(step.Claim? && step.worker == w) && !(step.Crash? && step.worker == w)
    ensures Tallied(WorkerOf(Apply(cfg, s, step), w), size, Counted(cfg, s, step, w, c))
  {
    if step.Begin? && step.worker == w {
      assert Holds(s, w, WorkerOf(s, w).queue[0]);
    } else if step.Fail? && step.worker == w {
      assert Holds(s, w, WorkerOf(s, w).running.value);
    }
    hide Sound, ClaimAll, FailedRow, ProcessedRow;
  }

  lemma {:induction false} TallyRun(
    cfg: Config, states: seq<System>, steps: seq<Step>, w: WorkerId, ids: seq<EventId>, i: nat, j: nat)
    requires IsRun(cfg, states, steps) && i < j <= |steps| && steps[i] == Claim(w, ids) && OneBatch(steps, w, i + 1, j)
    ensures Tallied(WorkerOf(states[j], w), |ids|, Tally(cfg, states, steps, w, i + 1, j))
    decreases j
  {
    if j == i + 1 {
      assert Enabled(cfg, states[i], steps[i]) && states[i + 1] == Apply(cfg, states[i], steps[i]);
    } else {
      hide Enabled, Apply, Tallied, Counted, Sound;
      TallyRun(cfg, states, steps, w, ids, i, j - 1);
      SoundRun(cfg, states, steps, j - 1);
      TallyStep(cfg, states[j - 1], steps[j - 1], w, |ids|, Tally(cfg, states, steps, w, i + 1, j - 1));
    }
  }

  // Whatever other workers do meanwhile, and whether or not leases hold, a
  // batch that is done has claimed = processed + retry + failed + skipped.
  lemma BatchAddsUp(
    cfg: Config, states: seq<System>, steps: seq<Step>, w: WorkerId, ids: seq<EventId>, i: nat, j: nat)
    requires IsRun(cfg, states, steps) && i < j <= |steps| && steps[i] == Claim(w, ids) && OneBatch(steps, w, i + 1, j)
    requires WorkerOf(states[j], w) == Worker([], None)
    ensures var c := Tally(cfg, states, steps, w, i + 1, j);
      c.claimed == |ids| == c.processed + c.retry + c.failed + c.skipped
  {
    TallyRun(cfg, states, steps, w, ids, i, j);
  }
}
