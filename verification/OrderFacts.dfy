// What orders charge, who can get one, and what each payment event does, said
// of the record before and after.
module OrderFacts {
  import opened Wrappers
  import opened EventTypes
  import opened Media
  import opened Ledger
  import opened Listings
  import opened Lifecycle
  import opened ReviewFacts

  // ---- what is charged ----

  // An unpaid order in dollars: the placement once, and every additional county.
  ghost predicate Quoted(o: Order, q: Quote) {
    && o.purpose == NewListing && o.status == Pending && o.paidAt.None? && o.currency == "USD"
    && o.totalMinor == q.primaryMinor + q.additionalMinor * q.counties
    && |o.lines| == (if q.counties > 0 then 2 else 1)
    && o.lines[0].unitMinor == q.primaryMinor && o.lines[0].quantity == 1
    && o.lines[0].durationDays == (if q.primaryDays > 0 then q.primaryDays else 30)
    && (q.counties > 0 ==>
          && o.lines[1].unitMinor == q.additionalMinor && o.lines[1].quantity == q.counties
          && o.lines[1].durationDays == (if q.additionalDays > 0 then q.additionalDays else 30))
  }

  // One line at the configured price, in the configured currency and for the
  // configured days.
  ghost predicate RenewalCharges(o: Order, t: Terms) {
    && o.purpose == Renewal && o.status == Pending && o.paidAt.None? && o.currency == t.currency
    && o.totalMinor == t.amountMinor && |o.lines| == 1
    && o.lines[0].unitMinor == t.amountMinor && o.lines[0].quantity == 1
    && Some(o.lines[0].durationDays) == t.durationDays
  }

  // One more order, and nothing else.
  ghost predicate Gains(r: Record, s: Record, o: Order) {
    s == r.(books := Books(r.books.orders + [o], r.books.events))
  }

  lemma QuoteCharges(q: Quote)
    ensures Quoted(QuoteOrder(q), q)
  {
  }

  // The quote of a waiting listing's owner: the order there is, or a new one.
  lemma QuoteAnswers(r: Record, permitted: bool, quote: Option<Quote>) returns (order: Order)
    ensures var first := exists i :: 0 <= i < |r.books.orders| && r.books.orders[i].purpose == NewListing;
      var s := CreateQuote(r, permitted, quote);
      && (!permitted ==> s == Err(Denied))
      && (permitted && r.status != AwaitingPayment ==> s == Err(NotEligible))
      && (permitted && r.status == AwaitingPayment && first ==> s == Ok(r))
      && (permitted && r.status == AwaitingPayment && !first && quote.None? ==> s == Err(NotConfigured))
      && (permitted && r.status == AwaitingPayment && !first && quote.Some? ==>
            s.Ok? && Quoted(order, quote.value) && Gains(r, s.value, order))
  {
    hide QuoteOrder, Quoted;
    var q := if quote.Some? then quote.value else Quote(0, 0, 0, 0, 0);
    order := QuoteOrder(q);
    QuoteCharges(q);
  }

  // A renewal of an expired or published listing: the unpaid one there is, or a
  // new one if a price and a number of days are configured.
  lemma CheckoutAnswers(r: Record, permitted: bool, terms: Option<Terms>) returns (order: Order)
    ensures var unpaid := exists i :: 0 <= i < |r.books.orders|
                            && r.books.orders[i].purpose == Renewal && r.books.orders[i].status == Pending;
      var eligible := permitted && (r.status == Expired || r.status == Published);
      var s := CreateCheckout(r, permitted, Renewal, None, terms);
      && (!permitted ==> s == Err(Denied))
      && (permitted && !eligible ==> s == Err(NotEligible))
      && (eligible && unpaid ==> s == Ok(r))
      && (eligible && !unpaid && (terms.None? || terms.value.durationDays.None?) ==> s == Err(NotConfigured))
      && (eligible && !unpaid && terms.Some? && terms.value.durationDays == Some(0) ==> s == Err(ConstraintViolated))
      && (eligible && !unpaid && terms.Some? && terms.value.durationDays.Some? && terms.value.durationDays.value > 0 ==>
            s.Ok? && RenewalCharges(order, terms.value) && Gains(r, s.value, order))
  {
    var t := if terms.Some? && terms.value.durationDays.Some? then terms.value else Terms(0, "", Some(1));
    order := RenewalOrder(t);
    assert (exists i :: 0 <= i < |r.books.orders| && UnpaidRenewal(r.books.orders[i])) <==>
      exists i :: 0 <= i < |r.books.orders|
        && r.books.orders[i].purpose == Renewal && r.books.orders[i].status == Pending;
  }

  // A first publication is ordered by its quote.
  lemma FirstCheckoutIsQuote(r: Record, permitted: bool, quote: Option<Quote>, terms: Option<Terms>)
    ensures CreateCheckout(r, permitted, NewListing, quote, terms) == CreateQuote(r, permitted, quote)
  {
  }

  // Renewing asks in addition for an expiry at most seven days ago, or still to
  // come, and no material edit.
  lemma RenewalAnswers(r: Record, permitted: bool, terms: Option<Terms>, now: Time)
    ensures var inTime := r.expiresAt.Some? && now - r.expiresAt.value <= 7 * DAY && r.lastMaterialEditAt.None?;
      CreateRenewal(r, permitted, terms, now) ==
      if permitted && !inTime then Err(NotEligible) else CreateCheckout(r, permitted, Renewal, None, terms)
  {
  }

  // ---- what a payment event does ----

  // Event i is closed now in the given way; with moved its order is as given.
  ghost predicate Closes(r: Record, b: Books, i: nat, status: EventStatus, reason: FailureReason, now: Time)
    requires i < |r.books.events|
  {
    && b.orders == r.books.orders
    && b.events == r.books.events[i :=
         r.books.events[i].(status := status, failureReason := reason, processedAt := Some(now))]
  }

  // Event i is processed now and its order takes a new status.
  ghost predicate Settled(r: Record, b: Books, i: nat, status: OrderStatus, paidAt: Option<Time>, now: Time)
    requires i < |r.books.events| && r.books.events[i].order < |r.books.orders|
  {
    var k := r.books.events[i].order;
    && b.orders == r.books.orders[k := r.books.orders[k].(status := status, paidAt := paidAt)]
    && b.events == r.books.events[i := r.books.events[i].(status := Processed, processedAt := Some(now))]
  }

  // An event whose amount or currency is not its order's.
  ghost predicate Differs(e: PaymentEvent, o: Order) {
    e.amountMinor != o.totalMinor || e.currency != o.currency
  }

  // A refund settles only a paid order, in full; it never touches the listing.
  lemma RefundAnswers(r: Record, i: nat, now: Time)
    requires i < |r.books.events| && r.books.events[i].order < |r.books.orders|
    requires r.books.events[i].kind == ChargeRefunded
    requires r.books.events[i].status == Received || r.books.events[i].status == FailedEvent
    ensures ProcessEvent(r, i, now).Ok?
    ensures var e, o := r.books.events[i], r.books.orders[r.books.events[i].order];
      var s := ProcessEvent(r, i, now).value;
      && s == r.(books := s.books)
      && (Differs(e, o) ==> Closes(r, s.books, i, FailedEvent, RefundMismatch, now))
      && (!Differs(e, o) && (o.status == Paid || o.status == RefundPending) ==>
            Settled(r, s.books, i, Refunded, o.paidAt, now))
      && (!Differs(e, o) && o.status != Paid && o.status != RefundPending ==>
            Closes(r, s.books, i, Ignored, e.failureReason, now))
  {
  }

  // A closed event does nothing, and one of another kind is ignored.
  lemma OtherEventAnswers(r: Record, i: nat, now: Time)
    requires i < |r.books.events| && r.books.events[i].order < |r.books.orders|
    ensures var e := r.books.events[i];
      var s := ProcessEvent(r, i, now);
      && (e.status == Processed || e.status == Ignored ==> s == Ok(r))
      && (e.status != Processed && e.status != Ignored && e.kind.OtherKind? ==>
            s.Ok? && s.value == r.(books := s.value.books)
            && Closes(r, s.value.books, i, Ignored, e.failureReason, now))
  {
  }

  // A payment that cannot be accepted closes its event and nothing else.
  lemma RefusedPaymentAnswers(r: Record, i: nat, now: Time)
    requires i < |r.books.events| && r.books.events[i].order < |r.books.orders|
    requires r.books.events[i].kind == PaymentSucceeded
    requires r.books.events[i].status == Received || r.books.events[i].status == FailedEvent
    ensures var e, o := r.books.events[i], r.books.orders[r.books.events[i].order];
      var first := !Differs(e, o) && o.status == Pending && o.purpose == NewListing;
      var s := ProcessEvent(r, i, now);
      && (Differs(e, o) ==>
            s.Ok? && s.value == r.(books := s.value.books)
            && Closes(r, s.value.books, i, FailedEvent, PaymentMismatch, now))
      && (!Differs(e, o) && o.status != Pending ==>
            s.Ok? && s.value == r.(books := s.value.books)
            && Closes(r, s.value.books, i, Ignored, e.failureReason, now))
      && (first && r.status != AwaitingPayment ==>
            s.Ok? && s.value == r.(books := s.value.books)
            && Closes(r, s.value.books, i, FailedEvent, NotAwaiting, now))
      && (first && r.status == AwaitingPayment && |Shown(r.images)| < r.requiredImages ==>
            s.Ok? && s.value == r.(books := s.value.books)
            && Closes(r, s.value.books, i, FailedEvent, ImagesMissing, now))
  {
    assert ApprovedImages(r.images) == Shown(r.images);
  }

  // The first payment of a waiting listing with its images publishes it until
  // its first line's days are over; a wanted listing gets no end from it.
  lemma FirstPaymentAnswers(r: Record, i: nat, now: Time)
    requires i < |r.books.events| && r.books.events[i].order < |r.books.orders|
    requires r.books.events[i].kind == PaymentSucceeded
    requires r.books.events[i].status == Received || r.books.events[i].status == FailedEvent
    requires !Differs(r.books.events[i], r.books.orders[r.books.events[i].order])
    requires r.books.orders[r.books.events[i].order].status == Pending
    requires r.books.orders[r.books.events[i].order].purpose == NewListing
    requires r.status == AwaitingPayment && |Shown(r.images)| >= r.requiredImages
    ensures ProcessEvent(r, i, now).Ok?
    ensures var o := r.books.orders[r.books.events[i].order];
      var s := ProcessEvent(r, i, now).value;
      && Settled(r, s.books, i, Paid, Some(now), now)
      && s == r.(status := Published, publishedAt := Some(now), revision := r.revision + 1, books := s.books,
                 firstPublishedAt := if r.firstPublishedAt.Some? then r.firstPublishedAt else Some(now),
                 expiresAt := if r.wanted || o.lines == [] then r.expiresAt
                              else Some(now + o.lines[0].durationDays * DAY),
                 audit := r.audit + [Action(Approved, AwaitingPayment, Published)])
  {
    assert ApprovedImages(r.images) == Shown(r.images);
  }

  // A renewal's payment publishes whatever the status, in time and unedited,
  // and rolls back otherwise.
  lemma RenewalPaymentAnswers(r: Record, i: nat, now: Time)
    requires i < |r.books.events| && r.books.events[i].order < |r.books.orders|
    requires r.books.events[i].kind == PaymentSucceeded
    requires r.books.events[i].status == Received || r.books.events[i].status == FailedEvent
    requires !Differs(r.books.events[i], r.books.orders[r.books.events[i].order])
    requires r.books.orders[r.books.events[i].order].status == Pending
    requires r.books.orders[r.books.events[i].order].purpose == Renewal
    ensures var o := r.books.orders[r.books.events[i].order];
      var inTime := r.expiresAt.Some? && now - r.expiresAt.value <= 7 * DAY && r.lastMaterialEditAt.None?;
      var key := OutboxKey(ListingApproved, r.revision + 1);
      var s := ProcessEvent(r, i, now);
      && (r.expiresAt.None? ==> s == Err(NotEligible))
      && (r.expiresAt.Some? && |o.lines| != 1 ==> s == Err(ManyLines))
      && (|o.lines| == 1 && !inTime ==> s == Err(NotEligible))
      && (|o.lines| == 1 && inTime && key in r.outbox ==> s == Err(DuplicateKey))
      && (|o.lines| == 1 && inTime && key !in r.outbox ==>
            && s.Ok? && Settled(r, s.value.books, i, Paid, Some(now), now)
            && s.value == r.(status := Published, publishedAt := Some(now), revision := r.revision + 1,
                             books := s.value.books, outbox := r.outbox + [key],
                             firstPublishedAt := if r.firstPublishedAt.Some? then r.firstPublishedAt else Some(now),
                             expiresAt := Some(now + o.lines[0].durationDays * DAY),
                             audit := r.audit + [Action(RenewedAction, r.status, Published)]))
  {
  }

  // A provider's event is stored as it came, once per provider id.
  lemma ReceiveAnswers(r: Record, id: string, kind: EventKind, order: nat, amountMinor: nat, currency: string)
    ensures var known := exists k :: 0 <= k < |r.books.events| && r.books.events[k].key == Provider(id);
      var s := ReceiveEvent(r, id, kind, order, amountMinor, currency);
      && (order >= |r.books.orders| ==> s == Err(NoSuchRow))
      && (order < |r.books.orders| && known ==> s == Err(DuplicateKey))
      && (order < |r.books.orders| && !known ==>
            && s.Ok? && |s.value.books.events| == |r.books.events| + 1
            && s.value == r.(books := Books(r.books.orders, s.value.books.events))
            && r.books.events <= s.value.books.events
            && var e := s.value.books.events[|r.books.events|];
               && e.key == Provider(id) && e.kind == kind && e.order == order && e.amountMinor == amountMinor
               && e.currency == currency && e.status == Received && e.processedAt.None?)
  {
  }

  // A local payment of an order is the processing of one event in its full
  // amount, the one there is or a new one.
  lemma LocalPaymentAnswers(r: Record, order: nat, now: Time) returns (before: Record, i: nat)
    requires Core(r) && order < |r.books.orders|
    ensures before == r.(books := Books(r.books.orders, before.books.events)) && r.books.events <= before.books.events
    ensures |before.books.events| <= |r.books.events| + 1 && i < |before.books.events|
    ensures var e := before.books.events[i];
      e.key == LocalPayment(order) && e.kind == PaymentSucceeded && e.order == order
      && !Differs(e, r.books.orders[order])
    ensures RecordLocalPayment(r, order, now) == ProcessEvent(before, i, now)
  {
    hide ProcessEvent, Balanced, History, Keys, Compact;
    var found := FindEvent(r.books.events, LocalPayment(order));
    if found.Some? {
      assert EventOk(r.books, r.books.events[found.value]);
      before, i := r, found.value;
    } else {
      var o := r.books.orders[order];
      var e := PaymentEvent(LocalPayment(order), PaymentSucceeded, order, o.totalMinor, o.currency, Received, None,
        NoReason);
      before, i := r.(books := r.books.(events := r.books.events + [e])), |r.books.events|;
    }
  }
}
