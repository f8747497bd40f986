// The dates of every publication: when it starts, when it ends, and which paid
// order says so.
module PublicationDates {
  import opened Wrappers
  import opened Media
  import opened Ledger
  import opened Listings
  import opened Lifecycle
  import opened LifecycleTheorems
  import opened Publication
  import opened RunTheorems

  ghost predicate Started(r: Record, s: Record, now: Time) {
    && s.publishedAt == Some(now)
    && s.firstPublishedAt == (if r.firstPublishedAt.Some? then r.firstPublishedAt else Some(now))
  }

  // What the first line of an order buys from now on.
  function Bought(o: Order, now: Time): Time
    requires o.lines != []
  {
    now + o.lines[0].durationDays * DAY
  }

  // A moderator's publication ends with the order last paid, if any is paid.
  ghost predicate EndsWithLatest(r: Record, s: Record, now: Time) {
    var paid := LatestPaid(r.books.orders);
    if paid.None? then s.expiresAt == r.expiresAt
    else r.books.orders[paid.value].lines != [] && s.expiresAt == Some(Bought(r.books.orders[paid.value], now))
  }

  // A payment's publication ends with the order it pays, except that the first
  // publication of a wanted listing sets no end.
  ghost predicate EndsWithPaid(r: Record, s: Record, now: Time) {
    exists o :: PaidBy(r.books, s.books, o) && PaidEnd(r, s, o, now)
  }

  predicate PaidEnd(r: Record, s: Record, o: nat, now: Time) {
    && o < |r.books.orders| && r.books.orders[o].lines != []
    && s.expiresAt ==
       if r.wanted && r.books.orders[o].purpose == NewListing then r.expiresAt else Some(Bought(r.books.orders[o], now))
  }

  lemma DecidedDates(r: Record, actor: nat, outcome: ActionKind, now: Time)
    requires IsApproval(outcome) || NeedsReason(outcome)
    requires TargetStatus(outcome) == Published && Decided(r, actor, outcome, now).Ok?
    ensures var s := Decided(r, actor, outcome, now).value; Started(r, s, now) && EndsWithLatest(r, s, now)
  {
  }

  lemma ConcludedPublication(r: Record, m: Moderation, outcome: ActionKind, now: Time)
    requires IsApproval(outcome) || NeedsReason(outcome)
    requires TargetStatus(outcome) == Published && Concluded(r, m, outcome, now).Ok?
    ensures var s := Concluded(r, m, outcome, now).value; s == r.(outbox := s.outbox)
  {
  }

  lemma ModerateDates(r: Record, m: Moderation, now: Time)
    requires Core(r) && Moderate(r, m, now).Ok? && Moderate(r, m, now).value.status == Published
    ensures var s := Moderate(r, m, now).value; Started(r, s, now) && EndsWithLatest(r, s, now)
  {
    hide ImagesReviewed, VideosReviewed, Moderate, Core, History, KeysBelow, BooksOk, Balanced, Compact, Concluded,
      Decided, EffectiveOutcome, LatestPaid;
    var reviewed, outcome, decided := ModerateStages(r, m, now);
    DecidedKeeps(reviewed, m.actor, outcome, now);
    CoreParts(reviewed);
    ConcludedKeeps(decided, m, outcome, now);
    DecidedDates(reviewed, m.actor, outcome, now);
    ConcludedPublication(decided, m, outcome, now);
  }

  // A settled payment and the row it published.
  lemma PaidDates(r: Record, moved: Record, i: nat, e: PaymentEvent, now: Time)
    requires e.order < |r.books.orders| && i < |r.books.events| && moved.books == r.books
    requires r.books.orders[e.order].status == Pending
    requires Started(r, moved, now) && PaidEnd(r, moved, e.order, now)
    ensures var s := WithEvent(WithOrder(moved, e.order, PaidOrder(r.books.orders[e.order], now)), i, e);
      Started(r, s, now) && EndsWithPaid(r, s, now)
  {
    var s := WithEvent(WithOrder(moved, e.order, PaidOrder(r.books.orders[e.order], now)), i, e);
    assert PaidBy(r.books, s.books, e.order) && PaidEnd(r, s, e.order, now);
  }

  lemma RenewalDates(r: Record, order: nat, now: Time)
    requires order < |r.books.orders| && r.books.orders[order].purpose == Renewal
    requires PaidRenewal(r, r.books.orders[order], now).Ok?
    ensures var s := PaidRenewal(r, r.books.orders[order], now).value;
      Started(r, s, now) && PaidEnd(r, s, order, now) && s.books == r.books
  {
  }

  lemma FirstPaymentDates(r: Record, order: nat, now: Time)
    requires order < |r.books.orders| && r.books.orders[order].purpose == NewListing
      && r.books.orders[order].lines != []
    ensures var s := PaidPublication(r, r.books.orders[order], now);
      Started(r, s, now) && PaidEnd(r, s, order, now) && s.books == r.books
  {
  }

  lemma ProcessDates(r: Record, i: nat, now: Time)
    requires Core(r) && ProcessEvent(r, i, now).Ok? && ProcessEvent(r, i, now).value.revision != r.revision
    ensures var s := ProcessEvent(r, i, now).value; Started(r, s, now) && EndsWithPaid(r, s, now)
  {
    hide Started, EndsWithPaid, PaidEnd, PaidRenewal, PaidPublication, Compact, History, Keys, Balanced;
    if Publishes(r, i) {
      var e := r.books.events[i].(processedAt := Some(now), status := Processed);
      assert OrderOk(r.books, e.order);
      if r.books.orders[e.order].purpose == Renewal {
        RenewalDates(r, e.order, now);
        PaidDates(r, PaidRenewal(r, r.books.orders[e.order], now).value, i, e, now);
      } else {
        FirstPaymentDates(r, e.order, now);
        PaidDates(r, PaidPublication(r, r.books.orders[e.order], now), i, e, now);
      }
    } else {
      NotPublishing(r, i, now);
    }
  }

  lemma ReceivedDates(r: Record, received: Record, s: Record, now: Time)
    requires received == r.(books := received.books) && received.books.orders == r.books.orders
    requires Started(received, s, now) && EndsWithPaid(received, s, now)
    ensures Started(r, s, now) && EndsWithPaid(r, s, now)
  {
    var o :| PaidBy(received.books, s.books, o) && PaidEnd(received, s, o, now);
    assert PaidBy(r.books, s.books, o) && PaidEnd(r, s, o, now);
  }

  lemma LocalDates(r: Record, order: nat, now: Time)
    requires Core(r) && RecordLocalPayment(r, order, now).Ok?
      && RecordLocalPayment(r, order, now).value.revision != r.revision
    ensures var s := RecordLocalPayment(r, order, now).value; Started(r, s, now) && EndsWithPaid(r, s, now)
  {
    hide ProcessEvent, Started, EndsWithPaid;
    var found := FindEvent(r.books.events, LocalPayment(order));
    if found.Some? {
      ProcessDates(r, found.value, now);
    } else {
      var o := r.books.orders[order];
      var e := PaymentEvent(LocalPayment(order), PaymentSucceeded, order, o.totalMinor, o.currency, Received, None,
        NoReason);
      var received := r.(books := r.books.(events := r.books.events + [e]));
      ReceiveKeeps(r, e);
      ProcessDates(received, |r.books.events|, now);
      ReceivedDates(r, received, RecordLocalPayment(r, order, now).value, now);
    }
  }

  lemma OtherPublications(r: Record, step: Step)
    requires !step.DoModerate? && !step.DoProcess? && !step.DoLocalPayment? && !step.DoPublishDemo? && !step.DoRefund?
    requires Apply(r, step).Ok? && Apply(r, step).value.status == Published
    ensures Apply(r, step).value.revision == r.revision
  {
    hide Uploaded, Reordered, Deleted, ReadySet, CompleteOrder, Elements;
  }

  lemma DemoDates(r: Record, permitted: bool, now: Time)
    requires Core(r) && PublishDemo(r, permitted, now).Ok?
      && PublishDemo(r, permitted, now).value.revision != r.revision
    ensures var s := PublishDemo(r, permitted, now).value; Started(r, s, now) && s.expiresAt == r.expiresAt
  {
  }

  lemma RefundLeavesRow(r: Record, now: Time)
    requires Core(r)
    ensures RefundRejected(r, now).Ok? && RefundRejected(r, now).value.revision == r.revision
  {
    RefundRejectedKeeps(r, now);
  }

  // Whatever step publishes a listing, the publication starts at that step's
  // time and the first one is remembered. It ends with the order last paid if a
  // moderator publishes, with the order just paid if a payment does, and else
  // as before.
  lemma PublicationsAreDated(r: Record, step: Step)
    requires Core(r) && Apply(r, step).Ok?
    requires Apply(r, step).value.status == Published && Apply(r, step).value.revision != r.revision
    ensures ClockOf(step).Some? && Started(r, Apply(r, step).value, ClockOf(step).value)
    ensures
      var s, now := Apply(r, step).value, ClockOf(step).value;
      match step
      case DoModerate(_, _) => EndsWithLatest(r, s, now)
      case DoPublishDemo(_, _) => s.expiresAt == r.expiresAt
      case _ => (step.DoProcess? || step.DoLocalPayment?) && EndsWithPaid(r, s, now)
  {
    hide Core, Moderate, ProcessEvent, RecordLocalPayment, PublishDemo, RefundRejected, Started, EndsWithPaid,
      EndsWithLatest;
    match step
    case DoModerate(m, now) => ModerateDates(r, m, now);
    case DoProcess(event, now) => ProcessDates(r, event, now);
    case DoLocalPayment(order, now) => LocalDates(r, order, now);
    case DoPublishDemo(permitted, now) => DemoDates(r, permitted, now);
    case DoRefund(now) => RefundLeavesRow(r, now);
    case _ => OtherPublications(r, step);
  }
}
