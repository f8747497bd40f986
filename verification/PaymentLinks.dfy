// Listings that wait for a payment: exactly when one can still come, and which
// payment links leave a listing waiting forever.
module PaymentLinks {
  import opened Wrappers
  import opened EventTypes
  import opened Media
  import opened Ledger
  import opened Listings
  import opened Lifecycle
  import opened LifecycleTheorems
  import opened Publication
  import opened OrderFacts

  ghost predicate UnpaidFirst(orders: seq<Order>) {
    exists i :: 0 <= i < |orders| && orders[i].purpose == NewListing && orders[i].status == Pending
  }

  ghost predicate HasUnpaidRenewal(orders: seq<Order>) {
    exists i :: 0 <= i < |orders| && UnpaidRenewal(orders[i])
  }

  // Some payment at time t would publish the waiting listing.
  ghost predicate Payable(r: Record, t: Time) {
    || (UnpaidFirst(r.books.orders) && EnoughApproved(r))
    || (HasUnpaidRenewal(r.books.orders) && InGrace(r, t))
  }

  ghost predicate Waiting(r: Record) {
    Core(r) && r.status == AwaitingPayment
  }

  // Only the books of a waiting listing change, and no order becomes unpaid.
  ghost predicate OnlySettles(r: Record, s: Record) {
    && s == r.(books := s.books) && |s.books.orders| == |r.books.orders|
    && forall i :: 0 <= i < |r.books.orders| ==> OrderForward(r.books.orders[i], s.books.orders[i])
  }

  lemma OnlySettlesUnpayable(r: Record, s: Record, t: Time)
    requires OnlySettles(r, s) && !Payable(r, t)
    ensures !Payable(s, t)
  {
  }

  lemma UnpayableProcess(r: Record, i: nat, now: Time, t: Time)
    requires Waiting(r) && !Payable(r, t) && t <= now && ProcessEvent(r, i, now).Ok?
    ensures OnlySettles(r, ProcessEvent(r, i, now).value)
  {
    var order := r.books.events[i].order;
    if Publishes(r, i) {
      PaidRenewalFacts(r, r.books.orders[order], now);
      assert r.books.orders[order].purpose == Renewal ==> UnpaidRenewal(r.books.orders[order]);
      assert false;
    } else {
      NotPublishing(r, i, now);
      ProcessForward(r, i, now);
    }
  }

  lemma UnpayableLocal(r: Record, order: nat, now: Time, t: Time)
    requires Waiting(r) && !Payable(r, t) && t <= now && RecordLocalPayment(r, order, now).Ok?
    ensures OnlySettles(r, RecordLocalPayment(r, order, now).value)
  {
    var found := FindEvent(r.books.events, LocalPayment(order));
    if found.Some? {
      UnpayableProcess(r, found.value, now, t);
    } else {
      var o := r.books.orders[order];
      var e := PaymentEvent(LocalPayment(order), PaymentSucceeded, order, o.totalMinor, o.currency, Received, None,
        NoReason);
      ReceiveKeeps(r, e);
      var received := r.(books := r.books.(events := r.books.events + [e]));
      OnlySettlesUnpayable(r, received, t);
      UnpayableProcess(received, |r.books.events|, now, t);
    }
  }

  // No other service touches a waiting listing.
  lemma OthersRefused(r: Record, step: Step)
    requires r.status == AwaitingPayment && !IsBillingStep(step)
    ensures Next(r, step) == r
  {
    hide Moved, Saved, Changed, Enqueued, ImagesReviewed, VideosReviewed, Decided, Concluded, Uploaded, Reordered,
      Deleted, ReadySet, CompleteOrder;
    if step.DoModerate? {
      assert AllowedOutcome(r, step.m).Some?;
    }
  }

  // Quotes, orders and received events settle nothing.
  lemma OrdersWait(r: Record, step: Step)
    requires Waiting(r) && IsBillingStep(step) && !step.DoProcess? && !step.DoLocalPayment? && !step.DoRefund?
    ensures OnlySettles(r, Next(r, step))
  {
    hide BooksOk, Balanced, History, Keys, Compact;
  }

  lemma UnpayableBilling(r: Record, step: Step, t: Time)
    requires Waiting(r) && !Payable(r, t) && IsBillingStep(step)
    requires ClockOf(step).Some? ==> t <= ClockOf(step).value
    ensures OnlySettles(r, Next(r, step))
  {
    hide Payable, Submit, ClaimReview, Moderate, OwnerTransition, Edit, UploadImage, ReorderImages, DeleteImage,
      UploadVideo, DeleteVideo, Expire, PublishDemo, CreateQuote, CreateCheckout, CreateRenewal, ReceiveEvent,
      ProcessEvent, RecordLocalPayment, RefundRejected, BooksOk, Balanced, History, Keys, Compact;
    match step
    case DoProcess(event, now) =>
      if ProcessEvent(r, event, now).Ok? {
        UnpayableProcess(r, event, now, t);
      }
    case DoLocalPayment(order, now) =>
      if RecordLocalPayment(r, order, now).Ok? {
        UnpayableLocal(r, order, now, t);
      }
    case DoRefund(now) => RefundRejectedKeeps(r, now);
    case _ => OrdersWait(r, step);
  }

  // Once unpayable, a listing waits in every run from then on.
  lemma {:induction false} UnpayableWaitsForever(r: Record, t: Time, steps: seq<Step>)
    requires Waiting(r) && !Payable(r, t) && NotBefore(t, steps)
    ensures Waiting(Run(r, steps)) && !Payable(Run(r, steps), t)
  {
    if steps != [] {
      var init, last := steps[..|steps| - 1], steps[|steps| - 1];
      UnpayableWaitsForever(r, t, init);
      hide Core, Payable, Next;
      StepKeepsCore(Run(r, init), last);
      if IsBillingStep(last) {
        UnpayableBilling(Run(r, init), last, t);
        OnlySettlesUnpayable(Run(r, init), Next(Run(r, init), last), t);
      } else {
        OthersRefused(Run(r, init), last);
      }
    }
  }

  // A payable order's local payment publishes the listing, whether its
  // deterministic event is new or failed before.
  lemma EventPublishes(r: Record, i: nat, now: Time)
    requires Core(r) && i < |r.books.events| && r.books.events[i].order < |r.books.orders| && Publishes(r, i)
    requires r.books.orders[r.books.events[i].order].purpose == Renewal ==> InGrace(r, now)
    ensures ProcessEvent(r, i, now).Ok? && ProcessEvent(r, i, now).value.status == Published
  {
    var order := r.books.events[i].order;
    assert OrderOk(r.books, order);
    PaidRenewalFacts(r, r.books.orders[order], now);
    Publishing(r, i, now);
  }

  lemma LocalPaymentPublishes(r: Record, order: nat, now: Time)
    requires Core(r) && order < |r.books.orders| && r.books.orders[order].status == Pending
    requires if r.books.orders[order].purpose == Renewal then InGrace(r, now)
             else r.status == AwaitingPayment && EnoughApproved(r)
    ensures RecordLocalPayment(r, order, now).Ok? && RecordLocalPayment(r, order, now).value.status == Published
  {
    hide Balanced, History, Keys, Compact, ProcessEvent;
    var found := FindEvent(r.books.events, LocalPayment(order));
    if found.Some? {
      assert EventOk(r.books, r.books.events[found.value]);
      EventPublishes(r, found.value, now);
    } else {
      var o := r.books.orders[order];
      var e := PaymentEvent(LocalPayment(order), PaymentSucceeded, order, o.totalMinor, o.currency, Received, None,
        NoReason);
      ReceiveKeeps(r, e);
      EventPublishes(r.(books := r.books.(events := r.books.events + [e])), |r.books.events|, now);
    }
  }

  lemma PayableOrder(r: Record, t: Time) returns (order: nat)
    requires r.status == AwaitingPayment && Payable(r, t)
    ensures order < |r.books.orders| && r.books.orders[order].status == Pending
    ensures if r.books.orders[order].purpose == Renewal then InGrace(r, t) else EnoughApproved(r)
  {
    if UnpaidFirst(r.books.orders) && EnoughApproved(r) {
      order :| 0 <= order < |r.books.orders| && r.books.orders[order].purpose == NewListing
        && r.books.orders[order].status == Pending;
    } else {
      order :| 0 <= order < |r.books.orders| && UnpaidRenewal(r.books.orders[order]);
    }
  }

  lemma PayableIsPublished(r: Record, t: Time) returns (step: Step)
    requires Waiting(r) && Payable(r, t)
    ensures Run(r, [step]).status == Published && ClockOf(step) == Some(t)
  {
    hide Core, RecordLocalPayment, Payable, EnoughApproved, InGrace;
    var order := PayableOrder(r, t);
    step := DoLocalPayment(order, t);
    LocalPaymentPublishes(r, order, t);
    assert [step][..0] == [];
  }

  // In every run from time t on, the listing keeps waiting. With clocked, only
  // runs whose clock never goes back are asked about.
  ghost predicate WaitsForever(r: Record, t: Time, clocked: bool) {
    forall steps :: NotBefore(t, steps) && (clocked ==> Clocked(steps)) ==> Run(r, steps).status == AwaitingPayment
  }

  // From any time on, a listing in AWAITING_PAYMENT stays there in every run
  // exactly when then it has neither an unpaid first order with its images
  // approved nor an unpaid renewal still in grace.
  lemma WaitsForeverExactlyWhenUnpayable(r: Record, t: Time)
    requires Core(r) && r.status == AwaitingPayment
    ensures WaitsForever(r, t, false) <==> !Payable(r, t)
    ensures WaitsForever(r, t, true) <==> !Payable(r, t)
  {
    hide Core, Payable, Run;
    if Payable(r, t) {
      var step := PayableIsPublished(r, t);
      assert NotBefore(t, [step]) && Clocked([step]);
      assert Run(r, [step]).status != AwaitingPayment;
    } else {
      forall steps | NotBefore(t, steps)
        ensures Run(r, steps).status == AwaitingPayment
      {
        UnpayableWaitsForever(r, t, steps);
      }
    }
  }

  // ---- approval with a payment link ----

  // What an approval with a link would strand at time t: the first order is
  // there but settled, and no unpaid renewal is still in grace.
  ghost predicate Stranding(r: Record, t: Time) {
    && HasOrder(r.books.orders, NewListing) && !UnpaidFirst(r.books.orders)
    && !(HasUnpaidRenewal(r.books.orders) && InGrace(r, t))
  }

  lemma LinkConcluded(decided: Record, m: Moderation, now: Time)
    requires Concluded(decided, m, ApprovedSendPaymentLink, now).Ok? && decided.status == AwaitingPayment
    ensures var s := Concluded(decided, m, ApprovedSendPaymentLink, now).value;
      && s == decided.(books := s.books, outbox := s.outbox)
      && s.outbox == decided.outbox + [OutboxKey(PaymentReady, decided.revision)]
      && (if HasOrder(decided.books.orders, NewListing) then s.books.orders == decided.books.orders
          else m.quote.Some? && NewOrderIs(decided.books.orders, s.books.orders, m.quote.value))
  {
    hide Quoted;
    var order := QuoteAnswers(decided, true, m.quote);
  }

  // One more order, as quoted.
  ghost predicate NewOrderIs(before: seq<Order>, after: seq<Order>, q: Quote) {
    |after| == |before| + 1 && after[..|before|] == before && Quoted(after[|before|], q)
  }

  lemma LinkDecided(r: Record, actor: nat, now: Time)
    requires Decided(r, actor, ApprovedSendPaymentLink, now).Ok?
    ensures var s := Decided(r, actor, ApprovedSendPaymentLink, now).value;
      s.expiresAt == r.expiresAt && s.lastMaterialEditAt == r.lastMaterialEditAt && s.status == AwaitingPayment
  {
  }

  // An approval with a link keeps the dates, finds the first order or creates
  // it, and enqueues one event, for which there is no handler.
  lemma LinkFacts(r: Record, m: Moderation, now: Time)
    requires Core(r) && Moderate(r, m, now).Ok? && Moderate(r, m, now).value.status == AwaitingPayment
    ensures var s := Moderate(r, m, now).value;
      && EnoughApproved(s) && s.expiresAt == r.expiresAt && s.lastMaterialEditAt == r.lastMaterialEditAt
      && s.outbox == r.outbox + [OutboxKey(PaymentReady, s.revision)] && !Handled(PaymentReady)
      && (if HasOrder(r.books.orders, NewListing) then s.books.orders == r.books.orders
          else m.quote.Some? && NewOrderIs(r.books.orders, s.books.orders, m.quote.value))
  {
    hide ImagesReviewed, VideosReviewed, Moderate, Core, History, KeysBelow, BooksOk, Balanced, Compact, Concluded,
      Decided, EffectiveOutcome, HasOrder, NewOrderIs;
    var reviewed, outcome, decided := ModerateStages(r, m, now);
    DecidedKeeps(reviewed, m.actor, outcome, now);
    CoreParts(reviewed);
    ConcludedKeeps(decided, m, outcome, now);
    assert outcome == ApprovedSendPaymentLink;
    LiveIsApproval(reviewed, m.outcome, outcome);
    LinkDecided(reviewed, m.actor, now);
    LinkConcluded(decided, m, now);
  }

  lemma QuoteIsUnpaid(before: seq<Order>, after: seq<Order>, q: Quote)
    requires NewOrderIs(before, after, q)
    ensures UnpaidFirst(after)
  {
    assert after[|before|].purpose == NewListing;
  }

  lemma UnpaidFirstIsFirst(orders: seq<Order>)
    requires UnpaidFirst(orders)
    ensures HasOrder(orders, NewListing)
  {
  }

  // Whether an approval with a link leaves its listing waiting forever, from
  // any time on, is decided before the call by the orders and the grace period.
  lemma LinkStrandsExactlyWhen(r: Record, m: Moderation, now: Time, t: Time)
    requires Core(r) && Moderate(r, m, now).Ok? && Moderate(r, m, now).value.status == AwaitingPayment
    ensures WaitsForever(Moderate(r, m, now).value, t, false) <==> Stranding(r, t)
    ensures WaitsForever(Moderate(r, m, now).value, t, true) <==> Stranding(r, t)
  {
    hide Core, Moderate, WaitsForever, UnpaidFirst, HasUnpaidRenewal, HasOrder, EnoughApproved, InGrace, NewOrderIs;
    LinkFacts(r, m, now);
    ModerateKeeps(r, m, now);
    var s := Moderate(r, m, now).value;
    WaitsForeverExactlyWhenUnpayable(s, t);
    SameGrace(r, s, t);
    if UnpaidFirst(r.books.orders) {
      UnpaidFirstIsFirst(r.books.orders);
    }
    if !HasOrder(r.books.orders, NewListing) {
      QuoteIsUnpaid(r.books.orders, s.books.orders, m.quote.value);
    }
  }

  lemma SameGrace(r: Record, s: Record, t: Time)
    requires s.expiresAt == r.expiresAt && s.lastMaterialEditAt == r.lastMaterialEditAt
    ensures InGrace(r, t) == InGrace(s, t)
  {
  }

  // A published listing whose first order is settled.
  ghost predicate FirstOrderSettled(r: Record) {
    HasOrder(r.books.orders, NewListing) && !UnpaidFirst(r.books.orders)
  }

  lemma EditKeepsOrders(r: Record, step: Step)
    requires IsContentStep(step) && Apply(r, step).Ok? && r.status == Published
    ensures var s := Apply(r, step).value; s.books == r.books && s.lastMaterialEditAt.Some? && s.status == InReview
  {
    hide Uploaded, Reordered, Deleted, ReadySet, CompleteOrder, Elements;
  }

  lemma {:induction false} Earliest(steps: seq<Step>) returns (t: Time)
    ensures NotBefore(t, steps)
  {
    if steps == [] {
      t := 0;
    } else {
      var last := ClockOf(steps[|steps| - 1]);
      t := Earliest(steps[..|steps| - 1]);
      if last.Some? && last.value < t {
        t := last.value;
      }
    }
  }

  // After a material edit there is no grace: a second link finds the settled
  // order, and the listing waits for a payment that nothing can make.
  lemma SecondLinkNeverPaid(r: Record, edit: Step, m: Moderation, now: Time, steps: seq<Step>)
    requires Core(r) && r.status == Published && FirstOrderSettled(r)
    requires IsContentStep(edit) && Apply(r, edit).Ok?
    requires Moderate(Apply(r, edit).value, m, now).Ok?
    requires Moderate(Apply(r, edit).value, m, now).value.status == AwaitingPayment
    ensures Run(Moderate(Apply(r, edit).value, m, now).value, steps).status == AwaitingPayment
  {
    hide Core, Moderate, Run, HasOrder, UnpaidFirst;
    var edited := Apply(r, edit).value;
    EditKeepsOrders(r, edit);
    StepKeepsCore(r, edit);
    var t := Earliest(steps);
    LinkStrandsExactlyWhen(edited, m, now, t);
  }
}
