// Settling a renewal does not look at the listing's status. This file gives,
// for every status, whether that is safe: it is exactly in the live statuses.
module RenewalLimits {
  import opened Wrappers
  import opened Ledger
  import opened Listings
  import opened Lifecycle
  import opened Publication
  import opened WitnessRuns

  // Paying an open renewal publishes the listing with its current content.
  lemma RenewalEventPublishes(r: Record, i: nat, now: Time)
    requires Core(r) && i < |r.books.events| && r.books.events[i].status == Received
      && r.books.events[i].kind == PaymentSucceeded
    requires r.books.events[i].order < |r.books.orders|
      && Matches(r.books.events[i], r.books.orders[r.books.events[i].order])
    requires UnpaidRenewal(r.books.orders[r.books.events[i].order]) && InGrace(r, now)
    ensures ProcessEvent(r, i, now).Ok?
    ensures var s := ProcessEvent(r, i, now).value;
      && s.status == Published && s.content == r.content && s.approved == r.approved
      && RenewalPaid(r.books, s.books, r.books.events[i].order)
  {
    var order := r.books.events[i].order;
    assert OrderOk(r.books, order);
    PaidRenewalFacts(r, r.books.orders[order], now);
    Publishing(r, i, now);
  }

  lemma OpenRenewalPublishes(r: Record)
    requires Core(r) && RenewalOpen(r) && r.lastMaterialEditAt.None?
    ensures SettlesRenewal(r, DoLocalPayment(1, EXPIRY))
    ensures var s := Next(r, DoLocalPayment(1, EXPIRY));
      s.status == Published && s.content == r.content && s.approved == r.approved
  {
    hide ProcessEvent, Balanced, History, Keys;
    var o := r.books.orders[1];
    var e := PaymentEvent(LocalPayment(1), PaymentSucceeded, 1, o.totalMinor, o.currency, Received, None, NoReason);
    var received := r.(books := r.books.(events := r.books.events + [e]));
    ReceiveKeeps(r, e);
    RenewalEventPublishes(received, |r.books.events|, EXPIRY);
    assert RenewalPaid(r.books, Next(r, DoLocalPayment(1, EXPIRY)).books, 1);
  }

  // In a record of this status reached by a regular run, settling a renewal
  // never publishes content that no moderator approved. With clocked, only runs
  // whose clock never goes back are asked about.
  ghost predicate RenewalSafe(q: Status, clocked: bool) {
    forall wanted, required, maximum, steps, step ::
      && RegularRun(NewDraft(wanted, required, maximum), steps)
      && Run(NewDraft(wanted, required, maximum), steps).status == q
      && SettlesRenewal(Run(NewDraft(wanted, required, maximum), steps), step)
      && (clocked ==> Clocked(steps + [step])) ==>
        ContentApproved(Next(Run(NewDraft(wanted, required, maximum), steps), step))
  }

  lemma FixtureSettlesNothing(r: Record, step: Step)
    requires step.DoPublishDemo?
    ensures !SettlesRenewal(r, step)
  {
  }

  // Settling in a live status keeps what was approved.
  lemma LiveIsSafe(start: Record, steps: seq<Step>, step: Step)
    requires Core(start) && ContentApproved(start) && RegularRun(start, steps)
    requires Live(Run(start, steps).status) && SettlesRenewal(Run(start, steps), step)
    ensures ContentApproved(Next(Run(start, steps), step))
  {
    hide Core, ContentApproved, RegularRun, Run, Next, SettlesRenewal, Live;
    ContentRun(start, steps);
    if step.DoPublishDemo? {
      FixtureSettlesNothing(Run(start, steps), step);
    }
    StepKeepsContent(Run(start, steps), step);
  }

  // The status check a settlement would need is exactly that the listing is
  // live, and no clock helps. No listing is ever stored as SUBMITTED.
  lemma RenewalSafeExactlyWhenLive(q: Status)
    requires q != Submitted
    ensures RenewalSafe(q, false) <==> Live(q)
    ensures RenewalSafe(q, true) <==> Live(q)
  {
    if Live(q) {
      hide Core, RegularRun, Run, Next, SettlesRenewal, Clocked;
      forall wanted, required, maximum, steps, step |
        RegularRun(NewDraft(wanted, required, maximum), steps)
          && Run(NewDraft(wanted, required, maximum), steps).status == q
        && SettlesRenewal(Run(NewDraft(wanted, required, maximum), steps), step)
        ensures ContentApproved(Next(Run(NewDraft(wanted, required, maximum), steps), step))
      {
        NewDraftCore(wanted, required, maximum);
        LiveIsSafe(NewDraft(wanted, required, maximum), steps, step);
      }
    } else {
      NotLiveIsUnsafe(q);
    }
  }

  lemma NotLiveIsUnsafe(q: Status)
    requires q != Submitted && !Live(q)
    ensures !RenewalSafe(q, false) && !RenewalSafe(q, true)
  {
    hide Core, RegularRun, Run, Next, SettlesRenewal, RenewalOpen, ClockedUpTo, Clocked;
    var steps := ReachUnapproved(q);
    OpenIsUnapproved(Run(START, steps));
    OpenRenewalPublishes(Run(START, steps));
    StaysClocked(steps, DoLocalPayment(1, EXPIRY), EXPIRY);
    assert !ContentApproved(Next(Run(START, steps), DoLocalPayment(1, EXPIRY)));
  }

  lemma StaysClocked(steps: seq<Step>, step: Step, t: Time)
    requires ClockedUpTo(steps, t) && ClockOf(step) == Some(t)
    ensures Clocked(steps + [step])
  {
  }

  lemma OpenIsUnapproved(r: Record)
    requires RenewalOpen(r)
    ensures r.approved == Some(0)
  {
  }
}
