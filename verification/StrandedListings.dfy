// Reachable listings that a payment link strands: after an edit at once, and
// with an unpaid renewal as soon as its grace is over. And the event of a link.
module StrandedListings {
  import opened EventTypes
  import opened Ledger
  import opened Listings
  import opened Lifecycle
  import opened Publication
  import opened PaymentLinks
  import opened WitnessRuns

  // A listing paid, edited and approved with a link again is reached by a
  // regular run whose clock never goes back, and waits forever from then on.
  lemma RelinkedWaitsForever() returns (steps: seq<Step>)
    ensures RegularRun(START, steps) && ClockedUpTo(steps, 0)
    ensures Core(Run(START, steps)) && Run(START, steps).status == AwaitingPayment
    ensures forall t :: WaitsForever(Run(START, steps), t, false)
  {
    hide Core, RegularRun, Run, ClockedUpTo, WaitsForever;
    steps := ReachRelinked();
    var r := Run(START, steps);
    forall t
      ensures WaitsForever(r, t, false)
    {
      WaitsForeverExactlyWhenUnpayable(r, t);
    }
  }

  // A listing archived, restored unchanged and approved with a link again can
  // still be paid by its open renewal, but only in the seven days after expiry.
  lemma GraceDecides() returns (steps: seq<Step>)
    ensures RegularRun(START, steps) && ClockedUpTo(steps, EXPIRY)
    ensures Core(Run(START, steps)) && Run(START, steps).status == AwaitingPayment
    ensures forall t :: WaitsForever(Run(START, steps), t, true) <==> t > EXPIRY + 7 * DAY
  {
    hide Core, RegularRun, Run, ClockedUpTo, WaitsForever;
    steps := ReachWaitingWithRenewal();
    var r := Run(START, steps);
    assert UnpaidRenewal(r.books.orders[1]);
    forall t
      ensures WaitsForever(r, t, true) <==> t > EXPIRY + 7 * DAY
    {
      WaitsForeverExactlyWhenUnpayable(r, t);
    }
  }

  // The first link of a listing already enqueues an event without a handler,
  // which no worker can ever mark as processed.
  lemma LinkEventHasNoHandler() returns (steps: seq<Step>)
    ensures RegularRun(START, steps) && ClockedUpTo(steps, 0)
    ensures exists k :: k in Run(START, steps).outbox && !Handled(k.eventType)
  {
    steps := ReachLinked(0);
    assert OutboxKey(PaymentReady, 3) in Run(START, steps).outbox;
  }
}
