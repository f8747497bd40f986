// What holds in every run of the outbox, and under which hypotheses.
module OutboxTheorems {
  import opened Wrappers
  import opened EventTypes
  import opened OutboxRows
  import opened OutboxSystem

  // ---- every interleaving, overrun leases and replays included ----

  ghost predicate Holds(s: System, w: WorkerId, ticket: Ticket) {
    ticket in WorkerOf(s, w).queue || WorkerOf(s, w).running == Some(ticket)
  }

  // Tickets name real, already claimed events and workers have names.
  ghost predicate TicketsReal(s: System) {
    forall w, ticket :: Holds(s, w, ticket) ==>
      && w != "" && ticket.event in s.rows.events
      && 1 <= ticket.number <= s.rows.events[ticket.event].attemptCount
      && ticket.claimedAt <= s.now
  }

  ghost predicate StartsPast(s: System) {
    forall k :: k in s.rows.attempts ==> s.rows.attempts[k].startedAt <= s.now
  }

  ghost predicate Sound(s: System) {
    Consistent(s.rows) && TicketsReal(s) && StartsPast(s)
  }

  // How one event row may change in one step.
  ghost predicate RowGrows(e: Event, f: Event) {
    && e.attemptCount <= f.attemptCount
    && (e.processedAt.Some? ==> f.processedAt.Some? && f.attemptCount == e.attemptCount)
  }

  lemma ClaimTickets(cfg: Config, s: System, w: WorkerId, ids: seq<EventId>)
    requires Sound(s) && Enabled(cfg, s, Claim(w, ids))
    ensures TicketsReal(Apply(cfg, s, Claim(w, ids)))
  {
    ClaimAllEvents(s.rows, ids, w, s.now);
    hide Consistent, Ready;
    var t := Apply(cfg, s, Claim(w, ids));
    forall v, ticket | Holds(t, v, ticket)
      ensures v != "" && ticket.event in t.rows.events
      ensures 1 <= ticket.number <= t.rows.events[ticket.event].attemptCount && ticket.claimedAt <= t.now
    {
      if v == w {
        var i :| 0 <= i < |ids| && ticket == Ticketed(s.rows, ids, s.now)[i];
        assert ids[i] in ids;
      } else {
        assert Holds(s, v, ticket);
      }
    }
  }

  lemma ClaimStep(cfg: Config, s: System, w: WorkerId, ids: seq<EventId>)
    requires Sound(s) && Enabled(cfg, s, Claim(w, ids))
    ensures var t := Apply(cfg, s, Claim(w, ids));
      && Sound(t)
      && (forall id :: id in s.rows.events ==> RowGrows(s.rows.events[id], t.rows.events[id]))
  {
    hide TicketsReal, KeysUnique, LocksNamed;
    ClaimAllRows(s.rows, ids, w, s.now);
    ClaimKeepsConsistent(s.rows, ids, w, s.now);
    ClaimTickets(cfg, s, w, ids);
    var t := Apply(cfg, s, Claim(w, ids));
    forall k | k in t.rows.attempts
      ensures t.rows.attempts[k].startedAt <= t.now
    {
      assert (k.0, k.1) in t.rows.attempts;
    }
  }

  // What the last transaction of a delivery leaves alone.
  lemma FinalRows(cfg: Config, s: System, step: Step)
    requires Enabled(cfg, s, step) && (step.Fail? || step.Succeed?)
    ensures var t := Apply(cfg, s, step);
      var done := WorkerOf(s, step.worker).running.value.event;
      && t.now == s.now && done in s.rows.events && t.rows.events.Keys == s.rows.events.Keys
      && (forall id :: id in s.rows.events && id != done ==> t.rows.events[id] == s.rows.events[id])
      && t.rows.events[done].lockedBy == "" && t.rows.events[done].lockedAt.None?
      && t.rows.events[done].attemptCount == s.rows.events[done].attemptCount
      && (s.rows.events[done].processedAt.Some? ==> t.rows.events[done].processedAt.Some?)
      && t.rows.attempts.Keys == s.rows.attempts.Keys
      && (forall k :: k in s.rows.attempts ==> t.rows.attempts[k].startedAt == s.rows.attempts[k].startedAt)
      && !Running(t, step.worker)
      && (forall v :: v != step.worker ==> WorkerOf(t, v) == WorkerOf(s, v))
      && (forall v, ticket :: Holds(t, v, ticket) ==> Holds(s, v, ticket))
  {
    hide SafeError, RetrySeconds;
  }

  lemma FinalConsistent(cfg: Config, s: System, step: Step)
    requires Sound(s) && Enabled(cfg, s, step) && (step.Fail? || step.Succeed?)
    ensures Consistent(Apply(cfg, s, step).rows)
  {
    var ticket := WorkerOf(s, step.worker).running.value;
    assert Holds(s, step.worker, ticket);
    hide Consistent, FailDelivery, CompleteDelivery;
    FinalisingKeepsConsistent(cfg, s.rows, ticket.event, if step.Fail? then step.errorType else "", s.now);
  }

  lemma FinalStep(cfg: Config, s: System, step: Step)
    requires Sound(s) && Enabled(cfg, s, step) && (step.Fail? || step.Succeed?)
    ensures var t := Apply(cfg, s, step);
      && Sound(t)
      && t.rows.events.Keys == s.rows.events.Keys
      && (forall id :: id in s.rows.events ==> RowGrows(s.rows.events[id], t.rows.events[id]))
  {
    hide Consistent, Apply, Enabled;
    FinalRows(cfg, s, step);
    FinalConsistent(cfg, s, step);
  }

  lemma OtherStep(cfg: Config, s: System, step: Step)
    requires Sound(s) && Enabled(cfg, s, step) && !step.Claim? && !step.Fail? && !step.Succeed?
    ensures var t := Apply(cfg, s, step);
      && Sound(t)
      && s.rows.events.Keys <= t.rows.events.Keys
      && (forall id :: id in s.rows.events ==> RowGrows(s.rows.events[id], t.rows.events[id]))
  {
    OtherTables(cfg, s, step);
    OtherHeld(cfg, s, step);
    hide Consistent, Apply, Enabled, RowGrows;
  }

  lemma OtherTables(cfg: Config, s: System, step: Step)
    requires Consistent(s.rows) && Enabled(cfg, s, step) && !step.Claim? && !step.Fail? && !step.Succeed?
    ensures var t := Apply(cfg, s, step);
      && Consistent(t.rows) && t.rows.attempts == s.rows.attempts && s.now <= t.now
      && s.rows.events.Keys <= t.rows.events.Keys
      && (forall id :: id in s.rows.events ==> RowGrows(s.rows.events[id], t.rows.events[id]))
  {
    if step.Enqueue? {
      assert forall n :: (step.id, n) !in s.rows.attempts;
    }
  }

  lemma OtherHeld(cfg: Config, s: System, step: Step)
    requires Enabled(cfg, s, step) && !step.Claim? && !step.Fail? && !step.Succeed?
    ensures forall v, u :: Holds(Apply(cfg, s, step), v, u) ==> Holds(s, v, u)
    ensures forall id :: id in s.rows.events ==>
      id in Apply(cfg, s, step).rows.events
      && s.rows.events[id].attemptCount <= Apply(cfg, s, step).rows.events[id].attemptCount
  {
  }

  // Every step keeps attempts numbered 1 .. attempt_count, and a processed
  // event is never claimed or reopened.
  lemma SoundStep(cfg: Config, s: System, step: Step)
    requires Sound(s) && Enabled(cfg, s, step)
    ensures Sound(Apply(cfg, s, step))
    ensures s.rows.events.Keys <= Apply(cfg, s, step).rows.events.Keys
    ensures forall id :: id in s.rows.events ==> RowGrows(s.rows.events[id], Apply(cfg, s, step).rows.events[id])
  {
    if step.Claim? {
      ClaimStep(cfg, s, step.worker, step.ids);
    } else if step.Fail? || step.Succeed? {
      FinalStep(cfg, s, step);
    } else {
      OtherStep(cfg, s, step);
    }
  }

  lemma {:induction false} SoundRun(cfg: Config, states: seq<System>, steps: seq<Step>, i: nat)
    requires IsRun(cfg, states, steps) && i < |states|
    ensures Sound(states[i])
  {
    if i > 0 {
      SoundRun(cfg, states, steps, i - 1);
      SoundStep(cfg, states[i - 1], steps[i - 1]);
    }
  }

  // In every state of every run the attempts of an event are numbered exactly
  // 1 .. attempt_count, and both attempt lookups of a running delivery succeed.
  lemma AttemptsExactlyNumbered(cfg: Config, states: seq<System>, steps: seq<Step>, i: nat)
    requires IsRun(cfg, states, steps) && i < |states|
    ensures forall id, n :: (id, n) in states[i].rows.attempts <==>
      id in states[i].rows.events && 1 <= n <= states[i].rows.events[id].attemptCount
    ensures forall w, errorType :: Running(states[i], w) ==>
      var id := WorkerOf(states[i], w).running.value.event;
      && FailDelivery(cfg, states[i].rows, id, errorType, states[i].now).Some?
      && CompleteDelivery(states[i].rows, id, states[i].now).Some?
  {
    SoundRun(cfg, states, steps, i);
    forall w, errorType: string | Running(states[i], w)
      ensures FailDelivery(cfg, states[i].rows, WorkerOf(states[i], w).running.value.event, errorType,
        states[i].now).Some?
      ensures CompleteDelivery(states[i].rows, WorkerOf(states[i], w).running.value.event, states[i].now).Some?
    {
      assert Holds(states[i], w, WorkerOf(states[i], w).running.value);
      FinalisingKeepsNumbering(cfg, states[i].rows, WorkerOf(states[i], w).running.value.event, errorType,
        states[i].now);
    }
  }

  // A processed event stays processed and is never claimed again, even by
  // workers that overran their leases.
  lemma {:induction false} ProcessedIsFinal(cfg: Config, states: seq<System>, steps: seq<Step>, i: nat, j: nat,
    id: EventId)
    requires IsRun(cfg, states, steps) && i <= j < |states|
    requires id in states[i].rows.events && states[i].rows.events[id].processedAt.Some?
    ensures id in states[j].rows.events && states[j].rows.events[id].processedAt.Some?
    ensures states[j].rows.events[id].attemptCount == states[i].rows.events[id].attemptCount
    decreases j - i
  {
    if i < j {
      SoundRun(cfg, states, steps, i);
      SoundStep(cfg, states[i], steps[i]);
      ProcessedIsFinal(cfg, states, steps, i + 1, j, id);
    }
  }

  // ---- replay ----

  // Once replayed, an event not processed before can be claimed at once, by any
  // worker that is idle, whatever it had come to: failed, leased or waiting.
  lemma ReplayedCanBeClaimed(cfg: Config, states: seq<System>, steps: seq<Step>, i: nat, id: EventId, w: WorkerId)
    requires IsRun(cfg, states, steps) && i < |steps| && steps[i] == Replay(id)
    requires id in states[i].rows.events && states[i].rows.events[id].processedAt.None?
    requires w != "" && WorkerOf(states[i + 1], w) == Worker([], None)
    ensures Enabled(cfg, states[i + 1], Claim(w, [id]))
    ensures var e, f := states[i].rows.events[id], states[i + 1].rows.events[id];
      && f.failedAt.None? && f.lockedAt.None? && f.lockedBy == "" && f.availableAt == states[i].now
      && f.attemptCount == e.attemptCount && f.eventType == e.eventType && f.key == e.key
  {
    assert Enabled(cfg, states[i], steps[i]) && states[i + 1] == Apply(cfg, states[i], steps[i]);
    assert id in [id];
  }

  // ---- event types without a handler ----

  ghost predicate ProcessedHandled(t: Table) {
    forall id :: id in t.events && t.events[id].processedAt.Some? ==> Handled(t.events[id].eventType)
  }

  lemma ProcessedHandledStep(cfg: Config, s: System, step: Step)
    requires Sound(s) && ProcessedHandled(s.rows) && Enabled(cfg, s, step)
    ensures ProcessedHandled(Apply(cfg, s, step).rows)
  {
    if step.Claim? {
      ClaimAllEvents(s.rows, step.ids, step.worker, s.now);
    } else {
      hide SafeError, RetrySeconds;
    }
  }

  lemma {:induction false} ProcessedHandledRun(cfg: Config, states: seq<System>, steps: seq<Step>, i: nat)
    requires IsRun(cfg, states, steps) && i < |states|
    ensures ProcessedHandled(states[i].rows)
  {
    if i > 0 {
      ProcessedHandledRun(cfg, states, steps, i - 1);
      SoundRun(cfg, states, steps, i - 1);
      ProcessedHandledStep(cfg, states[i - 1], steps[i - 1]);
    }
  }

  // Every notification of a listing has a handler, except a payment link's.
  lemma HandledTypes(t: EventType)
    ensures Handled(t) <==>
      t in {ListingApproved, ListingChangesRequested, ListingRejected, ListingSold, ListingExpired, ExpirationReminder}
  {
  }

  // In every run, only events whose type has a handler are ever processed.
  lemma OnlyHandledAreProcessed(cfg: Config, states: seq<System>, steps: seq<Step>, i: nat, id: EventId)
    requires IsRun(cfg, states, steps) && i < |states|
    ensures id in states[i].rows.events && states[i].rows.events[id].processedAt.Some? ==>
      Handled(states[i].rows.events[id].eventType)
  {
    ProcessedHandledRun(cfg, states, steps, i);
  }

  // ---- retry spacing: overrun leases allowed, no replay ----

  // The least time between the n-th claim of an event and the next one.
  function MinGap(cfg: Config, n: nat): int {
    var backoff := Power2(if n < 8 then n else 8) * SECOND;
    if cfg.Lease() < backoff then cfg.Lease() else backoff
  }

  lemma RetryCapNeverBinds(n: nat)
    ensures RetrySeconds(n) == Power2(if n < 8 then n else 8) <= 256
  {
    assert Power2(8) == 256 && Power2(7) == 128 && Power2(6) == 64 && Power2(5) == 32 && Power2(4) == 16;
  }

  ghost predicate GapsKept(cfg: Config, t: Table, id: EventId)
    requires Numbered(t) && id in t.events
  {
    forall n :: 1 <= n < t.events[id].attemptCount ==>
      t.attempts[(id, n + 1)].startedAt >= t.attempts[(id, n)].startedAt + MinGap(cfg, n)
  }

  // An open event that was claimed is either still locked since its last claim
  // or waits for the backoff of that claim to pass.
  ghost predicate NextClaimLater(t: Table, id: EventId)
    requires Numbered(t) && id in t.events
  {
    var e := t.events[id];
    e.Open() && e.attemptCount >= 1 ==>
      var last := t.attempts[(id, e.attemptCount)].startedAt;
      if e.lockedAt.Some? then e.lockedAt.value == last
      else e.availableAt >= last + RetrySeconds(e.attemptCount) * SECOND
  }

  ghost predicate Spaced(cfg: Config, s: System) {
    && Sound(s)
    && forall id :: id in s.rows.events ==> GapsKept(cfg, s.rows, id) && NextClaimLater(s.rows, id)
  }

  // One event across a batch of claims.
  lemma SpacedClaimedEvent(cfg: Config, t: Table, u: Table, id: EventId, w: WorkerId, now: Time)
    requires Numbered(t) && Numbered(u) && id in t.events && id in u.events
    requires GapsKept(cfg, t, id) && NextClaimLater(t, id) && Ready(cfg, t.events[id], now)
    requires u.events[id] == ClaimedRow(t.events[id], w, now)
    requires forall n :: 1 <= n <= t.events[id].attemptCount ==> u.attempts[(id, n)] == t.attempts[(id, n)]
    requires u.attempts[(id, t.events[id].attemptCount + 1)].startedAt == now
    ensures GapsKept(cfg, u, id) && NextClaimLater(u, id)
  {
    var e := t.events[id];
    RetryCapNeverBinds(e.attemptCount);
    forall n | 1 <= n < u.events[id].attemptCount
      ensures u.attempts[(id, n + 1)].startedAt >= u.attempts[(id, n)].startedAt + MinGap(cfg, n)
    {
      if n < e.attemptCount {
        assert t.attempts[(id, n + 1)].startedAt >= t.attempts[(id, n)].startedAt + MinGap(cfg, n);
      }
    }
  }

  lemma SpacedClaim(cfg: Config, s: System, w: WorkerId, ids: seq<EventId>)
    requires Spaced(cfg, s) && Enabled(cfg, s, Claim(w, ids))
    ensures Spaced(cfg, Apply(cfg, s, Claim(w, ids)))
  {
    SoundStep(cfg, s, Claim(w, ids));
    ClaimAllRows(s.rows, ids, w, s.now);
    var u := ClaimAll(s.rows, ids, w, s.now);
    forall id | id in u.events
      ensures GapsKept(cfg, u, id) && NextClaimLater(u, id)
    {
      var count := s.rows.events[id].attemptCount;
      assert GapsKept(cfg, s.rows, id) && NextClaimLater(s.rows, id);
      assert forall n :: 1 <= n <= count ==> u.attempts[(id, n)] == s.rows.attempts[(id, n)];
      if id in ids {
        assert (id, count + 1) !in s.rows.attempts && (id, count + 1) in u.attempts;
        SpacedClaimedEvent(cfg, s.rows, u, id, w, s.now);
      }
    }
  }

  lemma SpacedFinal(cfg: Config, s: System, step: Step)
    requires Spaced(cfg, s) && Enabled(cfg, s, step) && (step.Fail? || step.Succeed?)
    ensures Spaced(cfg, Apply(cfg, s, step))
  {
    SoundStep(cfg, s, step);
    var t := Apply(cfg, s, step);
    var done := WorkerOf(s, step.worker).running.value.event;
    assert forall k :: k in s.rows.attempts ==>
      k in t.rows.attempts && t.rows.attempts[k].startedAt == s.rows.attempts[k].startedAt;
    forall id | id in t.rows.events
      ensures GapsKept(cfg, t.rows, id) && NextClaimLater(t.rows, id)
    {
      assert GapsKept(cfg, s.rows, id) && NextClaimLater(s.rows, id);
      var n := s.rows.events[id].attemptCount;
      assert n >= 1 ==> (id, n) in s.rows.attempts;
    }
  }

  lemma SpacedStep(cfg: Config, s: System, step: Step)
    requires Spaced(cfg, s) && Enabled(cfg, s, step) && !step.Replay?
    ensures Spaced(cfg, Apply(cfg, s, step))
  {
    if step.Claim? {
      SpacedClaim(cfg, s, step.worker, step.ids);
    } else if step.Fail? || step.Succeed? {
      SpacedFinal(cfg, s, step);
    } else {
      SoundStep(cfg, s, step);
      var t := Apply(cfg, s, step);
      forall id | id in t.rows.events
        ensures GapsKept(cfg, t.rows, id) && NextClaimLater(t.rows, id)
      {
        if id in s.rows.events {
          assert GapsKept(cfg, s.rows, id) && NextClaimLater(s.rows, id);
        }
      }
    }
  }

  lemma {:induction false} SpacedRun(cfg: Config, states: seq<System>, steps: seq<Step>, i: nat)
    requires IsRun(cfg, states, steps) && NoReplay(steps) && i < |states|
    ensures Spaced(cfg, states[i])
  {
    if i > 0 {
      SpacedRun(cfg, states, steps, i - 1);
      SpacedStep(cfg, states[i - 1], steps[i - 1]);
    }
  }

  // In a run without replays, the claim after the n-th claim of an event comes
  // at least min(lease, 2^min(n, 8)) seconds later. Attempts start at their claim.
  lemma ClaimsAreSpaced(cfg: Config, states: seq<System>, steps: seq<Step>, i: nat, id: EventId, n: nat)
    requires IsRun(cfg, states, steps) && NoReplay(steps) && i < |states|
    requires 1 <= n && (id, n) in states[i].rows.attempts && (id, n + 1) in states[i].rows.attempts
    ensures states[i].rows.attempts[(id, n + 1)].startedAt >= states[i].rows.attempts[(id, n)].startedAt
      + MinGap(cfg, n)
  {
    SpacedRun(cfg, states, steps, i);
    assert GapsKept(cfg, states[i].rows, id);
  }

  // 2^1 + ... + 2^min(n, 8) with the exponent capped at 8: seconds of backoff before claim n + 1.
  function BackoffBefore(n: nat): nat {
    if n == 0 then 0 else BackoffBefore(n - 1) + Power2(if n < 8 then n else 8)
  }

  // With a lease of at least 256 seconds, claim n + 1 is no earlier than all
  // n backoffs after the first claim; the 300-second cap is never reached.
  lemma {:induction false} ClaimsAreDelayed(cfg: Config, states: seq<System>, steps: seq<Step>, i: nat, id: EventId,
    n: nat)
    requires IsRun(cfg, states, steps) && NoReplay(steps) && i < |states|
    requires cfg.leaseSeconds >= 256
    requires (id, n + 1) in states[i].rows.attempts
    ensures (id, 1) in states[i].rows.attempts
    ensures states[i].rows.attempts[(id, n + 1)].startedAt >= states[i].rows.attempts[(id, 1)].startedAt
      + BackoffBefore(n) * SECOND
  {
    SoundRun(cfg, states, steps, i);
    if n > 0 {
      ClaimsAreDelayed(cfg, states, steps, i, id, n - 1);
      ClaimsAreSpaced(cfg, states, steps, i, id, n);
      RetryCapNeverBinds(n);
    }
  }
}
