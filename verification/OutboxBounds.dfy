// No event is claimed more than OUTBOX_MAX_ATTEMPTS times while no lease is
// abandoned, whatever the workers interleave.
module OutboxBounds {
  import opened OutboxRows
  import opened OutboxSystem
  import opened OutboxTheorems
  import opened OutboxLeases

  // No claimed event, queued or running, is older than its lease.
  ghost predicate Prompt(cfg: Config, s: System) {
    forall w, ticket :: Holds(s, w, ticket) ==> s.now <= ticket.claimedAt + cfg.Lease()
  }

  ghost predicate NoCrash(steps: seq<Step>) {
    forall i :: 0 <= i < |steps| ==> !steps[i].Crash?
  }

  // Some worker still holds the ticket behind the lock of an open event.
  ghost predicate LockHeld(s: System, id: EventId) {
    exists w, ticket :: Holds(s, w, ticket) && ticket.event == id && id in s.rows.events
      && s.rows.events[id].lockedBy == w
  }

  ghost predicate WithinLimit(cfg: Config, s: System, id: EventId)
    requires id in s.rows.events
  {
    var e := s.rows.events[id];
    && e.attemptCount <= Limit(cfg)
    && (e.Open() && e.lockedAt.None? ==> e.attemptCount < Limit(cfg))
    && (e.Open() && e.lockedAt.Some? ==> LockHeld(s, id))
  }

  ghost predicate Bounded(cfg: Config, s: System) {
    LeaseKept(s) && forall id :: id in s.rows.events ==> WithinLimit(cfg, s, id)
  }

  lemma PromptIsTimely(cfg: Config, s: System)
    requires Prompt(cfg, s)
    ensures Timely(cfg, s)
  {
    forall w | Running(s, w)
      ensures s.now <= WorkerOf(s, w).running.value.claimedAt + cfg.Lease()
    {
      assert Holds(s, w, WorkerOf(s, w).running.value);
    }
  }

  // A locked open event cannot be claimed again while its ticket is within its lease.
  lemma LockedNotReady(cfg: Config, s: System, id: EventId)
    requires Bounded(cfg, s) && Prompt(cfg, s) && id in s.rows.events
    requires s.rows.events[id].Open() && s.rows.events[id].lockedAt.Some?
    ensures !Ready(cfg, s.rows.events[id], s.now)
  {
    assert WithinLimit(cfg, s, id);
    var w, ticket :| Holds(s, w, ticket) && ticket.event == id && s.rows.events[id].lockedBy == w;
  }

  lemma BoundedClaim(cfg: Config, s: System, w: WorkerId, ids: seq<EventId>)
    requires Bounded(cfg, s) && Prompt(cfg, s) && Enabled(cfg, s, Claim(w, ids))
    ensures Bounded(cfg, Apply(cfg, s, Claim(w, ids)))
  {
    PromptIsTimely(cfg, s);
    LeaseClaim(cfg, s, w, ids);
    assert Numbered(s.rows);
    hide LeaseKept, Apply, Enabled, WithinLimit, Ready;
    forall id | id in s.rows.events
      ensures WithinLimit(cfg, Apply(cfg, s, Claim(w, ids)), id)
    {
      assert WithinLimit(cfg, s, id);
      ClaimWithinLimit(cfg, s, w, ids, id);
    }
  }

  // One event across a batch of claims.
  lemma ClaimWithinLimit(cfg: Config, s: System, w: WorkerId, ids: seq<EventId>, id: EventId)
    requires Bounded(cfg, s) && Prompt(cfg, s) && Enabled(cfg, s, Claim(w, ids)) && id in s.rows.events
      && Numbered(s.rows)
    ensures Apply(cfg, s, Claim(w, ids)).rows.events.Keys == s.rows.events.Keys
    ensures WithinLimit(cfg, Apply(cfg, s, Claim(w, ids)), id)
  {
    hide LeaseKept, Numbered;
    ClaimAllEvents(s.rows, ids, w, s.now);
    var t := Apply(cfg, s, Claim(w, ids));
    assert WithinLimit(cfg, s, id);
    if id in ids {
      if s.rows.events[id].lockedAt.Some? {
        LockedNotReady(cfg, s, id);
      }
      var i :| 0 <= i < |ids| && ids[i] == id;
      assert Holds(t, w, Ticketed(s.rows, ids, s.now)[i]);
    } else if s.rows.events[id].Open() && s.rows.events[id].lockedAt.Some? {
      var v, ticket :| Holds(s, v, ticket) && ticket.event == id && s.rows.events[id].lockedBy == v;
      assert Holds(t, v, ticket);
    }
  }

  lemma BoundedFinal(cfg: Config, s: System, step: Step)
    requires Bounded(cfg, s) && Enabled(cfg, s, step) && (step.Fail? || step.Succeed?)
    ensures Bounded(cfg, Apply(cfg, s, step))
  {
    LeaseFinal(cfg, s, step);
    var t := Apply(cfg, s, step);
    var done := WorkerOf(s, step.worker).running.value;
    forall id | id in t.rows.events
      ensures WithinLimit(cfg, t, id)
    {
      assert WithinLimit(cfg, s, id);
      if id != done.event && s.rows.events[id].Open() && s.rows.events[id].lockedAt.Some? {
        var v, ticket :| Holds(s, v, ticket) && ticket.event == id && s.rows.events[id].lockedBy == v;
        assert Holds(t, v, ticket);
      }
    }
  }

  lemma BoundedOther(cfg: Config, s: System, step: Step)
    requires Bounded(cfg, s) && Enabled(cfg, s, step) && (step.Tick? || step.Enqueue? || step.Begin?)
    requires LeaseKept(Apply(cfg, s, step))
    ensures Bounded(cfg, Apply(cfg, s, step))
  {
    var t := Apply(cfg, s, step);
    forall id | id in t.rows.events
      ensures WithinLimit(cfg, t, id)
    {
      if id in s.rows.events {
        assert WithinLimit(cfg, s, id);
        if s.rows.events[id].Open() && s.rows.events[id].lockedAt.Some? {
          var v, ticket :| Holds(s, v, ticket) && ticket.event == id && s.rows.events[id].lockedBy == v;
          assert Holds(t, v, ticket);
        }
      }
    }
  }

  lemma {:induction false} BoundedRun(cfg: Config, states: seq<System>, steps: seq<Step>, i: nat)
    requires IsRun(cfg, states, steps) && NoReplay(steps) && NoCrash(steps) && i < |states|
    requires forall j :: 0 <= j < |states| ==> Prompt(cfg, states[j])
    ensures Bounded(cfg, states[i])
  {
    if i > 0 {
      var s, step := states[i - 1], steps[i - 1];
      BoundedRun(cfg, states, steps, i - 1);
      PromptIsTimely(cfg, s);
      LeaseStep(cfg, s, step);
      if step.Claim? {
        BoundedClaim(cfg, s, step.worker, step.ids);
      } else if step.Fail? || step.Succeed? {
        BoundedFinal(cfg, s, step);
      } else {
        BoundedOther(cfg, s, step);
      }
    }
  }

  // With no replay and no abandoned lease every event is claimed at most
  // max(1, OUTBOX_MAX_ATTEMPTS) times, and an open event that waits for its
  // next claim always has one left.
  lemma ClaimsAreBounded(cfg: Config, states: seq<System>, steps: seq<Step>, i: nat, id: EventId)
    requires IsRun(cfg, states, steps) && NoReplay(steps) && NoCrash(steps) && i < |states|
    requires forall j :: 0 <= j < |states| ==> Prompt(cfg, states[j])
    requires id in states[i].rows.events
    ensures states[i].rows.events[id].attemptCount <= Limit(cfg)
    ensures states[i].rows.events[id].Open() && states[i].rows.events[id].lockedAt.None? ==>
      states[i].rows.events[id].attemptCount < Limit(cfg)
  {
    BoundedRun(cfg, states, steps, i);
    assert WithinLimit(cfg, states[i], id);
  }
}
