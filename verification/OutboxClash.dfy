// Runs that overrun a lease and leave an event both processed and failed, for
// every configuration.
module OutboxClash {
  import opened Wrappers
  import opened EventTypes
  import opened OutboxRows
  import opened OutboxSystem
  import opened OutboxTheorems
  import opened OutboxLeases

  // A replay-free run and where it ends.
  ghost predicate Reaches(cfg: Config, states: seq<System>, steps: seq<Step>, s: System) {
    IsRun(cfg, states, steps) && NoReplay(steps) && states[|steps|] == s
  }

  lemma Grow(cfg: Config, states: seq<System>, steps: seq<Step>, s: System, step: Step)
    returns (more: seq<System>, longer: seq<Step>)
    requires Reaches(cfg, states, steps, s) && Enabled(cfg, s, step) && !step.Replay?
    ensures Reaches(cfg, more, longer, Apply(cfg, s, step))
  {
    hide Enabled, Apply;
    more, longer := states + [Apply(cfg, s, step)], steps + [step];
  }

  // What a worker is doing with event 0.
  datatype Phase = AtRest | Queued | Runs

  predicate InPhase(k: Worker, p: Phase) {
    match p
    case AtRest => k == Worker([], None)
    case Queued => |k.queue| == 1 && k.queue[0].event == 0 && k.running.None?
    case Runs => k.queue == [] && k.running.Some? && k.running.value.event == 0
  }

  // Event 0 is open after n claims, locked by owner ("" for nobody), and two
  // workers are in their phases.
  ghost predicate Stage(s: System, n: nat, a: Phase, b: Phase, owner: WorkerId) {
    && Sound(s) && 0 in s.rows.events
    && InPhase(WorkerOf(s, "a"), a) && InPhase(WorkerOf(s, "b"), b)
    && var e := s.rows.events[0];
       e.Open() && e.attemptCount == n && Handled(e.eventType) && e.lockedBy == owner
  }

  predicate Claimable(cfg: Config, s: System) {
    0 in s.rows.events && Ready(cfg, s.rows.events[0], s.now)
  }

  lemma ClaimZero(cfg: Config, s: System, w: WorkerId)
    requires Sound(s) && Claimable(cfg, s) && w != "" && WorkerOf(s, w) == Worker([], None)
    ensures Enabled(cfg, s, Claim(w, [0]))
    ensures var t := Apply(cfg, s, Claim(w, [0]));
      && Sound(t) && 0 in t.rows.events && t.rows.events[0] == ClaimedRow(s.rows.events[0], w, s.now)
      && WorkerOf(t, w) == Worker([Ticket(0, s.rows.events[0].attemptCount + 1, s.now)], None)
      && forall v :: v != w ==> WorkerOf(t, v) == WorkerOf(s, v)
  {
    ClaimAllEvents(s.rows, [0], w, s.now);
    ClaimStep(cfg, s, w, [0]);
    hide Sound, ClaimAll;
    assert 0 in [0];
    assert Ticketed(s.rows, [0], s.now) == [Ticket(0, s.rows.events[0].attemptCount + 1, s.now)];
  }

  lemma ClaimStage(cfg: Config, s: System, n: nat, a: Phase, b: Phase, owner: WorkerId, w: WorkerId)
    requires Stage(s, n, a, b, owner) && Claimable(cfg, s)
    requires (w == "a" && a == AtRest) || (w == "b" && b == AtRest)
    ensures Enabled(cfg, s, Claim(w, [0]))
    ensures Stage(Apply(cfg, s, Claim(w, [0])), n + 1,
                  if w == "a" then Queued else a, if w == "b" then Queued else b, w)
  {
    hide Sound, Apply, Enabled, Claimable;
    ClaimZero(cfg, s, w);
  }

  lemma BeginStage(cfg: Config, s: System, n: nat, a: Phase, b: Phase, w: WorkerId)
    requires Stage(s, n, a, b, w)
    requires (w == "a" && a == Queued) || (w == "b" && b == Queued)
    ensures Enabled(cfg, s, Begin(w))
    ensures Stage(Apply(cfg, s, Begin(w)), n, if w == "a" then Runs else a, if w == "b" then Runs else b, w)
    ensures Apply(cfg, s, Begin(w)).now == s.now
  {
    OtherStep(cfg, s, Begin(w));
    hide Sound;
  }

  // Waiting until a lease is over and the event is available.
  lemma TickStage(cfg: Config, s: System, n: nat, a: Phase, b: Phase, owner: WorkerId) returns (later: Time)
    requires Stage(s, n, a, b, owner)
    ensures Enabled(cfg, s, Tick(later))
    ensures Stage(Apply(cfg, s, Tick(later)), n, a, b, owner) && Claimable(cfg, Apply(cfg, s, Tick(later)))
  {
    var e := s.rows.events[0];
    later := s.now;
    if later < e.availableAt {
      later := e.availableAt;
    }
    if e.lockedAt.Some? && later <= e.lockedAt.value + cfg.Lease() {
      later := e.lockedAt.value + cfg.Lease() + 1;
    }
    OtherStep(cfg, s, Tick(later));
    hide Sound;
  }

  // A failed attempt below the limit unlocks the event for a retry.
  lemma RetryStage(cfg: Config, s: System, n: nat)
    requires Stage(s, n, Runs, AtRest, "a") && n < cfg.maxAttempts
    ensures Enabled(cfg, s, Fail("a", ""))
    ensures Stage(Apply(cfg, s, Fail("a", "")), n, AtRest, AtRest, "")
  {
    RunnerFinds(s, "a");
    FinalStep(cfg, s, Fail("a", ""));
    hide Sound, SafeError, RetrySeconds;
  }

  // A running delivery finds its event and its attempt.
  lemma RunnerFinds(s: System, w: WorkerId)
    requires Sound(s) && Running(s, w)
    ensures var id := WorkerOf(s, w).running.value.event;
      id in s.rows.events && (id, s.rows.events[id].attemptCount) in s.rows.attempts
  {
    assert Holds(s, w, WorkerOf(s, w).running.value);
  }

  // The late worker fails at the limit, then the other one succeeds.
  lemma ClashStage(cfg: Config, s: System, n: nat)
    requires Stage(s, n, Runs, Runs, "b") && n >= cfg.maxAttempts
    ensures Enabled(cfg, s, Fail("a", ""))
    ensures var t := Apply(cfg, s, Fail("a", ""));
      Enabled(cfg, t, Succeed("b")) && Clashes(Apply(cfg, t, Succeed("b")).rows, 0)
  {
    RunnerFinds(s, "a");
    FinalStep(cfg, s, Fail("a", ""));
    var t := Apply(cfg, s, Fail("a", ""));
    RunnerFinds(t, "b");
    hide Sound, SafeError, RetrySeconds;
  }

  // ---- the run ----

  lemma Start(cfg: Config) returns (states: seq<System>, steps: seq<Step>, s: System)
    ensures Reaches(cfg, states, steps, s) && Stage(s, 0, AtRest, AtRest, "") && Claimable(cfg, s)
  {
    var empty := System(Table(map[], map[]), map[], 0);
    var create := Enqueue(0, ListingApproved, "k", 0);
    assert Reaches(cfg, [empty], [], empty);
    SoundRun(cfg, [empty], [], 0);
    OtherStep(cfg, empty, create);
    states, steps := Grow(cfg, [empty], [], empty, create);
    s := Apply(cfg, empty, create);
  }

  // Worker a claims and begins.
  lemma FirstBegins(cfg: Config, states: seq<System>, steps: seq<Step>, s: System, n: nat)
    returns (more: seq<System>, longer: seq<Step>, t: System)
    requires Reaches(cfg, states, steps, s) && Stage(s, n, AtRest, AtRest, "") && Claimable(cfg, s)
    ensures Reaches(cfg, more, longer, t) && Stage(t, n + 1, Runs, AtRest, "a")
  {
    hide Reaches, Stage, Enabled, Apply, Claimable;
    ClaimStage(cfg, s, n, AtRest, AtRest, "", "a");
    more, longer := Grow(cfg, states, steps, s, Claim("a", [0]));
    t := Apply(cfg, s, Claim("a", [0]));
    BeginStage(cfg, t, n + 1, Queued, AtRest, "a");
    more, longer := Grow(cfg, more, longer, t, Begin("a"));
    t := Apply(cfg, t, Begin("a"));
  }

  // After n failed attempts, as long as the limit allows a retry.
  lemma {:induction false} AfterRetries(cfg: Config, n: nat) returns (states: seq<System>, steps: seq<Step>, s: System)
    requires n == 0 || n < cfg.maxAttempts
    ensures Reaches(cfg, states, steps, s) && Stage(s, n, AtRest, AtRest, "") && Claimable(cfg, s)
  {
    hide Reaches, Stage, Enabled, Apply, Claimable;
    if n == 0 {
      states, steps, s := Start(cfg);
    } else {
      states, steps, s := AfterRetries(cfg, n - 1);
      states, steps, s := FirstBegins(cfg, states, steps, s, n - 1);
      RetryStage(cfg, s, n);
      states, steps := Grow(cfg, states, steps, s, Fail("a", ""));
      s := Apply(cfg, s, Fail("a", ""));
      var later := TickStage(cfg, s, n, AtRest, AtRest, "");
      states, steps := Grow(cfg, states, steps, s, Tick(later));
      s := Apply(cfg, s, Tick(later));
    }
  }

  // Worker b takes over from worker a once the lease is over.
  lemma SecondBegins(cfg: Config, states: seq<System>, steps: seq<Step>, s: System, n: nat)
    returns (more: seq<System>, longer: seq<Step>, t: System)
    requires Reaches(cfg, states, steps, s) && Stage(s, n, Runs, AtRest, "a")
    ensures Reaches(cfg, more, longer, t) && Stage(t, n + 1, Runs, Runs, "b")
  {
    hide Reaches, Stage, Enabled, Apply, Claimable;
    var later := TickStage(cfg, s, n, Runs, AtRest, "a");
    more, longer := Grow(cfg, states, steps, s, Tick(later));
    t := Apply(cfg, s, Tick(later));
    ClaimStage(cfg, t, n, Runs, AtRest, "a", "b");
    more, longer := Grow(cfg, more, longer, t, Claim("b", [0]));
    t := Apply(cfg, t, Claim("b", [0]));
    BeginStage(cfg, t, n + 1, Runs, Queued, "b");
    more, longer := Grow(cfg, more, longer, t, Begin("b"));
    t := Apply(cfg, t, Begin("b"));
  }

  // For every lease and every limit there is a run without replays that leaves
  // an event both processed and failed.
  lemma EveryConfigurationClashes(cfg: Config) returns (states: seq<System>, steps: seq<Step>)
    ensures IsRun(cfg, states, steps) && NoReplay(steps) && Clashes(states[|steps|].rows, 0)
  {
    hide Stage, Enabled, Apply, Claimable, Clashes, IsRun, NoReplay;
    var n: nat := if cfg.maxAttempts >= 2 then cfg.maxAttempts - 2 else 0;
    var s: System;
    states, steps, s := AfterRetries(cfg, n);
    states, steps, s := FirstBegins(cfg, states, steps, s, n);
    states, steps, s := SecondBegins(cfg, states, steps, s, n + 1);
    ClashStage(cfg, s, n + 2);
    states, steps := Grow(cfg, states, steps, s, Fail("a", ""));
    s := Apply(cfg, s, Fail("a", ""));
    states, steps := Grow(cfg, states, steps, s, Succeed("b"));
  }
}
