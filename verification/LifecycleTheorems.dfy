// Properties of every run of a listing, from a new draft, over all services.
module LifecycleTheorems {
  import opened Wrappers
  import opened Media
  import opened Ledger
  import opened Listings
  import opened Lifecycle

  // ---- states: audit replay, publication dates, money, image order ----

  // Folding the moderation history of a run from DRAFT is a gapless chain that
  // ends at the current status; published_at is set exactly while PUBLISHED.
  lemma HistoryReplays(wanted: bool, required: nat, maximum: nat, steps: seq<Step>)
    ensures var r := Run(NewDraft(wanted, required, maximum), steps);
      && Replay(r.audit) == Some(r.status)
      && (r.publishedAt.Some? <==> r.status == Published)
      && (r.status == Published ==> r.firstPublishedAt.Some?)
  {
    RunKeepsCore(NewDraft(wanted, required, maximum), steps);
  }

  // What Replay means, without the fold: neighbouring actions agree.
  lemma {:induction false} ReplayIsChain(audit: seq<Action>)
    ensures Replay(audit).Some? <==>
      (audit != [] ==> audit[0].from == Draft) && forall i :: 0 <= i < |audit| - 1 ==> audit[i].to == audit[i + 1].from
    ensures Replay(audit).Some? ==> Replay(audit).value == if audit == [] then Draft else audit[|audit| - 1].to
  {
    if audit != [] {
      var init := audit[..|audit| - 1];
      ReplayIsChain(init);
      assert forall i :: 0 <= i < |init| ==> init[i] == audit[i];
      assert |audit| > 1 ==> audit[|audit| - 2] == init[|init| - 1];
    }
  }

  // In every currency, settled payments less settled refunds are the totals of
  // the orders held as paid.
  lemma BooksBalance(wanted: bool, required: nat, maximum: nat, steps: seq<Step>, currency: string)
    ensures var b := Run(NewDraft(wanted, required, maximum), steps).books;
      Net(b.events, currency) == HeldPaid(b.orders, currency)
  {
    RunKeepsCore(NewDraft(wanted, required, maximum), steps);
  }

  // Under duplicates, replays and disorder an order is paid by exactly one
  // event and refunded by at most one, and its status says which.
  lemma OrdersSettleOnce(wanted: bool, required: nat, maximum: nat, steps: seq<Step>, order: nat)
    ensures var b := Run(NewDraft(wanted, required, maximum), steps).books;
      order < |b.orders| ==>
        && (b.orders[order].status == Pending || b.orders[order].status == Paid || b.orders[order].status == Refunded)
        && SettledCount(b.events, order, PaymentSucceeded) == (if b.orders[order].status == Pending then 0 else 1)
        && SettledCount(b.events, order, ChargeRefunded) == (if b.orders[order].status == Refunded then 1 else 0)
  {
    RunKeepsCore(NewDraft(wanted, required, maximum), steps);
    var b := Run(NewDraft(wanted, required, maximum), steps).books;
    assert order < |b.orders| ==> OrderOk(b, order);
  }

  // In every run an order's total is what its lines add up to, and a renewal
  // has one line.
  lemma OrdersAddUp(wanted: bool, required: nat, maximum: nat, steps: seq<Step>, order: nat)
    ensures var b := Run(NewDraft(wanted, required, maximum), steps).books;
      order < |b.orders| ==>
        && b.orders[order].totalMinor == LinesTotal(b.orders[order].lines)
        && 1 <= |b.orders[order].lines| <= 2 && (b.orders[order].purpose == Renewal ==> |b.orders[order].lines| == 1)
  {
    RunKeepsCore(NewDraft(wanted, required, maximum), steps);
    var b := Run(NewDraft(wanted, required, maximum), steps).books;
    assert order < |b.orders| ==> OrderOk(b, order);
  }

  // A rejected listing holds no paid order.
  lemma RejectedHoldsNoPayment(wanted: bool, required: nat, maximum: nat, steps: seq<Step>)
    ensures var r := Run(NewDraft(wanted, required, maximum), steps);
      r.status == Rejected ==> forall i :: 0 <= i < |r.books.orders| ==> r.books.orders[i].status != Paid
  {
    RunKeepsCore(NewDraft(wanted, required, maximum), steps);
  }

  // The READY images of every reachable listing are ordered 0 .. n-1, one each.
  lemma ImagesStayOrdered(wanted: bool, required: nat, maximum: nat, steps: seq<Step>)
    ensures var images := Run(NewDraft(wanted, required, maximum), steps).images;
      UniqueReady(images) && forall v :: v in Orderings(images) <==> 0 <= v < |ReadySet(images)|
  {
    RunKeepsCore(NewDraft(wanted, required, maximum), steps);
    CompactOrderings(Run(NewDraft(wanted, required, maximum), steps).images);
  }

  // ---- steps: what only moves forward ----

  // The lifecycle columns across one step.
  ghost predicate RowForward(r: Record, s: Record) {
    && r.audit <= s.audit
    && r.outbox <= s.outbox
    && r.content <= s.content
    && ((s.revision == r.revision && s.audit == r.audit && s.status == r.status && s.outbox == r.outbox)
        || (s.revision > r.revision && |s.audit| > |r.audit|))
    && (r.firstPublishedAt.Some? ==> s.firstPublishedAt == r.firstPublishedAt)
  }

  // The books across one step: orders move PENDING to PAID to REFUNDED, events
  // keep their identity, and closed events stay as they are.
  ghost predicate BooksForward(a: Books, b: Books) {
    && |a.orders| <= |b.orders| && |a.events| <= |b.events|
    && (forall i :: 0 <= i < |a.orders| ==> OrderForward(a.orders[i], b.orders[i]))
    && (forall i :: 0 <= i < |a.events| ==>
          && b.events[i] == a.events[i].(status := b.events[i].status, processedAt := b.events[i].processedAt,
                                         failureReason := b.events[i].failureReason)
          && (a.events[i].status == Processed || a.events[i].status == Ignored ==> b.events[i] == a.events[i]))
  }

  lemma EventMoves(a: Books, i: nat, e: PaymentEvent, order: nat, o: Order)
    requires i < |a.events| && a.events[i].status != Processed && a.events[i].status != Ignored
    requires e == a.events[i].(status := e.status, processedAt := e.processedAt, failureReason := e.failureReason)
    requires order < |a.orders| && OrderForward(a.orders[order], o)
    ensures BooksForward(a, Books(a.orders[order := o], a.events[i := e]))
  {
  }

  // One history row, one revision, and the rest unchanged or longer.
  lemma RowMoves(r: Record, s: Record, a: Action)
    requires s.audit == r.audit + [a] && s.revision == r.revision + 1
    requires r.outbox <= s.outbox && r.content <= s.content
    requires r.firstPublishedAt.Some? ==> s.firstPublishedAt == r.firstPublishedAt
    ensures RowForward(r, s)
  {
  }

  lemma RowStays(r: Record, s: Record)
    requires s.audit == r.audit && s.revision == r.revision && s.status == r.status && s.outbox == r.outbox
    requires r.content <= s.content
    requires r.firstPublishedAt.Some? ==> s.firstPublishedAt == r.firstPublishedAt
    ensures RowForward(r, s)
  {
  }

  lemma PaidRenewalRow(r: Record, o: Order, now: Time)
    requires PaidRenewal(r, o, now).Ok?
    ensures var s := PaidRenewal(r, o, now).value;
      RowForward(r, s) && s.books == r.books && s.revision == r.revision + 1 && s.status == Published
  {
    RowMoves(r, PaidRenewal(r, o, now).value, Action(RenewedAction, r.status, Published));
  }

  lemma PaidPublicationRow(r: Record, o: Order, now: Time)
    ensures var s := PaidPublication(r, o, now);
      RowForward(r, s) && s.books == r.books && s.revision == r.revision + 1 && s.status == Published
  {
    RowMoves(r, PaidPublication(r, o, now), Action(Approved, r.status, Published));
  }

  lemma OrderSettled(b: Books, order: nat)
    requires BooksOk(b) && order < |b.orders|
    ensures b.orders[order].status != PaymentFailed && b.orders[order].status != RefundPending
    ensures b.orders[order].paidAt.Some? <==> b.orders[order].status != Pending
  {
    assert OrderOk(b, order);
  }

  // An unsettled payment of an unpaid order publishes.
  lemma PaidForward(r: Record, moved: Record, i: nat, now: Time)
    requires i < |r.books.events| && r.books.events[i].status != Processed && r.books.events[i].status != Ignored
    requires r.books.events[i].order < |r.books.orders|
    requires r.books.orders[r.books.events[i].order].status == Pending
      && r.books.orders[r.books.events[i].order].paidAt.None?
    requires RowForward(r, moved) && moved.books == r.books
    ensures var e := r.books.events[i].(processedAt := Some(now), status := Processed);
      var s := WithEvent(WithOrder(moved, e.order, PaidOrder(r.books.orders[e.order], now)), i, e);
      RowForward(r, s) && BooksForward(r.books, s.books)
  {
    var e := r.books.events[i].(processedAt := Some(now), status := Processed);
    EventMoves(r.books, i, e, e.order, PaidOrder(r.books.orders[e.order], now));
  }

  // Every other event leaves the listing row alone.
  lemma QuietForward(r: Record, i: nat, e: PaymentEvent, o: Order)
    requires i < |r.books.events| && r.books.events[i].status != Processed && r.books.events[i].status != Ignored
    requires e == r.books.events[i].(status := e.status, processedAt := e.processedAt, failureReason := e.failureReason)
    requires e.order < |r.books.orders| && OrderForward(r.books.orders[e.order], o)
    ensures var s := WithEvent(WithOrder(r, e.order, o), i, e);
      RowForward(r, s) && BooksForward(r.books, s.books)
  {
    RowStays(r, WithEvent(WithOrder(r, e.order, o), i, e));
    EventMoves(r.books, i, e, e.order, o);
  }

  lemma SameOrder(r: Record, order: nat)
    requires order < |r.books.orders|
    ensures WithOrder(r, order, r.books.orders[order]) == r
  {
    assert r.books.orders[order := r.books.orders[order]] == r.books.orders;
  }

  // The event at i publishes the listing: a matching payment of an unpaid order.
  predicate Publishes(r: Record, i: nat)
    requires i < |r.books.events| && r.books.events[i].order < |r.books.orders|
  {
    var e := r.books.events[i];
    var o := r.books.orders[e.order];
    && e.status != Processed && e.status != Ignored && e.kind == PaymentSucceeded && Matches(e, o)
      && o.status == Pending
    && (o.purpose == Renewal || (r.status == AwaitingPayment && EnoughApproved(r)))
  }

  // How an event that publishes nothing is closed.
  lemma ClosedEvent(r: Record, i: nat, now: Time) returns (e: PaymentEvent, o: Order)
    requires BooksOk(r.books) && ProcessEvent(r, i, now).Ok? && !Publishes(r, i)
    requires r.books.events[i].status != Processed && r.books.events[i].status != Ignored
    ensures e == r.books.events[i].(status := e.status, processedAt := e.processedAt, failureReason := e.failureReason)
    ensures OrderForward(r.books.orders[e.order], o)
    ensures ProcessEvent(r, i, now).value == WithEvent(WithOrder(r, e.order, o), i, e)
  {
    hide BooksOk, PaidRenewal, PaidPublication;
    var order := r.books.events[i].order;
    OrderSettled(r.books, order);
    SameOrder(r, order);
    e, o := r.books.events[i].(processedAt := Some(now)), r.books.orders[order];
    if e.kind == ChargeRefunded && !Matches(e, o) {
      e := e.(status := FailedEvent, failureReason := RefundMismatch);
    } else if e.kind == ChargeRefunded && o.status == Paid {
      e, o := e.(status := Processed), o.(status := Refunded);
    } else if e.kind == ChargeRefunded || e.kind != PaymentSucceeded {
      e := e.(status := Ignored);
    } else if !Matches(e, o) {
      e := e.(status := FailedEvent, failureReason := PaymentMismatch);
    } else if o.status != Pending {
      e := e.(status := Ignored);
    } else {
      e := e.(status := FailedEvent, failureReason :=
        if r.status != AwaitingPayment then NotAwaiting else ImagesMissing);
    }
  }

  lemma ProcessForward(r: Record, i: nat, now: Time)
    requires BooksOk(r.books) && ProcessEvent(r, i, now).Ok?
    ensures var s := ProcessEvent(r, i, now).value; RowForward(r, s) && BooksForward(r.books, s.books)
  {
    hide BooksOk, RowForward, BooksForward, PaidRenewal, PaidPublication, WithOrder, WithEvent;
    var e := r.books.events[i];
    if e.status == Processed || e.status == Ignored {
      OrderForwardReflexive(r.books);
      RowStays(r, r);
    } else if !Publishes(r, i) {
      var closed, o := ClosedEvent(r, i, now);
      QuietForward(r, i, closed, o);
    } else {
      var o := r.books.orders[e.order];
      OrderSettled(r.books, e.order);
      if o.purpose == Renewal {
        PaidRenewalRow(r, o, now);
        PaidForward(r, PaidRenewal(r, o, now).value, i, now);
      } else {
        PaidPublicationRow(r, o, now);
        PaidForward(r, PaidPublication(r, o, now), i, now);
      }
    }
  }

  lemma LocalForward(r: Record, order: nat, now: Time)
    requires Core(r) && RecordLocalPayment(r, order, now).Ok?
    ensures var s := RecordLocalPayment(r, order, now).value; RowForward(r, s) && BooksForward(r.books, s.books)
  {
    var found := FindEvent(r.books.events, LocalPayment(order));
    if found.Some? {
      ProcessForward(r, found.value, now);
    } else {
      var o := r.books.orders[order];
      var e := PaymentEvent(LocalPayment(order), PaymentSucceeded, order, o.totalMinor, o.currency, Received, None,
        NoReason);
      ReceiveKeeps(r, e);
      var received := r.(books := r.books.(events := r.books.events + [e]));
      ProcessForward(received, |r.books.events|, now);
      assert forall k :: 0 <= k < |r.books.events| ==> received.books.events[k] == r.books.events[k];
    }
  }

  lemma RefundForward(r: Record, now: Time)
    requires BooksOk(r.books)
    ensures RefundRejected(r, now).Ok?
    ensures var s := RefundRejected(r, now).value; RowForward(r, s) && BooksForward(r.books, s.books)
  {
    RefundRejectedKeeps(r, now);
    RowStays(r, RefundRejected(r, now).value);
  }

  lemma QuoteForward(r: Record, permitted: bool, quote: Option<Quote>)
    requires CreateQuote(r, permitted, quote).Ok?
    ensures var s := CreateQuote(r, permitted, quote).value;
      s == r.(books := s.books) && RowForward(r, s) && BooksForward(r.books, s.books)
  {
  }

  lemma ConcludedForward(r: Record, m: Moderation, outcome: ActionKind, now: Time)
    requires BooksOk(r.books) && KeysBelow(r, r.revision) && Concluded(r, m, outcome, now).Ok?
    ensures var s := Concluded(r, m, outcome, now).value;
      s == r.(books := s.books, outbox := s.outbox) && BooksForward(r.books, s.books) && r.outbox <= s.outbox
  {
    if outcome == ApprovedSendPaymentLink {
      QuoteForward(r, true, m.quote);
    } else if outcome == RejectedAction {
      RefundRejectedKeeps(r, now);
      RefundForward(r, now);
    }
  }

  lemma ModerateForward(r: Record, m: Moderation, now: Time)
    requires Core(r) && Moderate(r, m, now).Ok?
    ensures var s := Moderate(r, m, now).value; RowForward(r, s) && BooksForward(r.books, s.books)
  {
    hide ImagesReviewed, VideosReviewed, Moderate, Core, History, KeysBelow, BooksOk, Balanced, Compact, Concluded,
      EffectiveOutcome;
    var reviewed, outcome, decided := ModerateStages(r, m, now);
    DecidedKeeps(reviewed, m.actor, outcome, now);
    CoreParts(reviewed);
    ConcludedForward(decided, m, outcome, now);
  }

  lemma OrderForwardReflexive(a: Books)
    ensures BooksForward(a, a)
  {
  }

  lemma EventAppended(a: Books, e: PaymentEvent)
    ensures BooksForward(a, a.(events := a.events + [e]))
  {
  }

  lemma ReceiveForward(r: Record, e: PaymentEvent)
    ensures var s := r.(books := r.books.(events := r.books.events + [e]));
      RowForward(r, s) && BooksForward(r.books, s.books)
  {
    EventAppended(r.books, e);
  }

  lemma SubmitForward(r: Record, permitted: bool, flags: nat)
    requires Submit(r, permitted, flags).Ok?
    ensures RowForward(r, Submit(r, permitted, flags).value)
  {
  }

  lemma OwnerForward(r: Record, permitted: bool, action: OwnerAction, now: Time)
    requires OwnerTransition(r, permitted, action, now).Ok?
    ensures var s := OwnerTransition(r, permitted, action, now).value; RowForward(r, s) && s.books == r.books
  {
    var s := OwnerTransition(r, permitted, action, now).value;
    RowMoves(r, s, s.audit[|s.audit| - 1]);
  }

  lemma ChangedForward(r: Record, s: Record, now: Time)
    requires s == r.(images := s.images, videos := s.videos, requiredImages := s.requiredImages,
                     maximumImages := s.maximumImages, firstPublishedAt := s.firstPublishedAt)
    requires r.firstPublishedAt.Some? ==> s.firstPublishedAt == r.firstPublishedAt
    ensures RowForward(r, Changed(s, now)) && Changed(s, now).books == r.books
  {
    if s.status == Published {
      RowMoves(r, Changed(s, now), Action(MaterialEdit, Published, InReview));
    } else {
      RowStays(r, Changed(s, now));
    }
  }

  lemma ExpireForward(r: Record, now: Time)
    requires Expire(r, now).Ok?
    ensures var s := Expire(r, now).value; RowForward(r, s) && s.books == r.books
  {
    if Due(r, now) {
      RowMoves(r, Expire(r, now).value, Action(ExpiredAction, Published, Expired));
    }
  }

  lemma PublishDemoForward(r: Record, permitted: bool, now: Time)
    requires PublishDemo(r, permitted, now).Ok?
    ensures var s := PublishDemo(r, permitted, now).value; RowForward(r, s) && s.books == r.books
  {
    if r.status == Draft {
      RowMoves(r, PublishDemo(r, permitted, now).value, Action(DirectApproval, Draft, Published));
    }
  }

  lemma CheckoutForward(r: Record, permitted: bool, purpose: Purpose, quote: Option<Quote>, terms: Option<Terms>)
    requires CreateCheckout(r, permitted, purpose, quote, terms).Ok?
    ensures var s := CreateCheckout(r, permitted, purpose, quote, terms).value;
      RowForward(r, s) && BooksForward(r.books, s.books)
  {
    var s := CreateCheckout(r, permitted, purpose, quote, terms).value;
    OrderForwardReflexive(r.books);
    if purpose == NewListing {
      QuoteForward(r, permitted, quote);
    }
    RowStays(r, s);
  }

  // The services that change text or media.
  predicate IsContentStep(step: Step) {
    step.DoEdit? || step.DoUploadImage? || step.DoReorder? || step.DoDeleteImage? || step.DoUploadVideo?
      || step.DoDeleteVideo?
  }

  // The services that write orders or payment events.
  predicate IsBillingStep(step: Step) {
    || step.DoQuote? || step.DoCheckout? || step.DoRenew? || step.DoReceive? || step.DoProcess? || step.DoLocalPayment?
    || step.DoRefund?
  }

  lemma ContentForward(r: Record, step: Step)
    requires IsContentStep(step) && Apply(r, step).Ok?
    ensures var s := Apply(r, step).value; RowForward(r, s) && s.books == r.books
  {
    match step
    case DoEdit(_, required, maximum, now) =>
      ChangedForward(r, Saved(r, now).(requiredImages := required, maximumImages := maximum), now);
    case DoUploadImage(_, now) => ChangedForward(r, r.(images := Uploaded(r.images)), now);
    case DoReorder(_, ids, now) =>
      CompleteOrderIsPermutation(r.images, ids);
      ChangedForward(r, r.(images := Reordered(r.images, ids)), now);
    case DoDeleteImage(_, id, now) => ChangedForward(r, r.(images := Deleted(r.images, id)), now);
    case DoUploadVideo(_, now) => ChangedForward(r, r.(videos := r.videos + [Video(true, PendingReview, "")]), now);
    case DoDeleteVideo(_, id, now) =>
      ChangedForward(r, r.(videos := r.videos[id := r.videos[id].(ready := false)]), now);
  }

  lemma BillingForward(r: Record, step: Step)
    requires Core(r) && IsBillingStep(step) && Apply(r, step).Ok?
    ensures var s := Apply(r, step).value; RowForward(r, s) && BooksForward(r.books, s.books)
  {
    hide ProcessEvent, RecordLocalPayment, RefundRejected, CreateQuote, CreateCheckout, BooksForward, RowForward,
      History, Keys, Compact, Balanced, OrderOk, EventOk;
    match step
    case DoQuote(permitted, quote) => QuoteForward(r, permitted, quote);
    case DoCheckout(permitted, purpose, quote, terms) => CheckoutForward(r, permitted, purpose, quote, terms);
    case DoRenew(permitted, terms, now) => CheckoutForward(r, permitted, Renewal, None, terms);
    case DoReceive(id, kind, order, amountMinor, currency) =>
      ReceiveForward(r, PaymentEvent(Provider(id), kind, order, amountMinor, currency, Received, None, NoReason));
    case DoProcess(event, now) => ProcessForward(r, event, now);
    case DoLocalPayment(order, now) => LocalForward(r, order, now);
    case DoRefund(now) => RefundForward(r, now);
  }

  lemma StatusForward(r: Record, step: Step)
    requires Core(r) && !IsContentStep(step) && !IsBillingStep(step) && Apply(r, step).Ok?
    ensures var s := Apply(r, step).value; RowForward(r, s) && BooksForward(r.books, s.books)
  {
    OrderForwardReflexive(r.books);
    match step
    case DoSubmit(permitted, flags) => SubmitForward(r, permitted, flags);
    case DoClaim(permitted, actor, revision) =>
      RowMoves(r, ClaimReview(r, permitted, actor, revision).value, Action(ClaimedAction, r.status, r.status));
    case DoModerate(m, now) => ModerateForward(r, m, now);
    case DoOwner(permitted, action, now) => OwnerForward(r, permitted, action, now);
    case DoExpire(now) => ExpireForward(r, now);
    case DoPublishDemo(permitted, now) => PublishDemoForward(r, permitted, now);
  }

  // Every step only moves the record forward: the history, outbox and content
  // grow, the revision rises exactly when the history does, the first
  // publication is fixed once, orders and closed events never go back.
  lemma StepForward(r: Record, step: Step)
    requires Core(r)
    ensures RowForward(r, Next(r, step)) && BooksForward(r.books, Next(r, step).books)
  {
    OrderForwardReflexive(r.books);
    RowStays(r, r);
    if Apply(r, step).Ok? {
      if IsContentStep(step) {
        ContentForward(r, step);
      } else if IsBillingStep(step) {
        BillingForward(r, step);
      } else {
        StatusForward(r, step);
      }
    }
  }
}
