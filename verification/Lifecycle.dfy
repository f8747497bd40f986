// Runs of one listing under every service, and what each step keeps.
module Lifecycle {
  import opened Wrappers
  import opened EventTypes
  import opened Media
  import opened Ledger
  import opened Listings

  datatype Step =
    | DoSubmit(permitted: bool, flags: nat)
    | DoClaim(permitted: bool, actor: nat, revision: int)
    | DoModerate(m: Moderation, now: Time)
    | DoOwner(permitted: bool, action: OwnerAction, now: Time)
    | DoEdit(permitted: bool, required: nat, maximum: nat, now: Time)
    | DoUploadImage(permitted: bool, now: Time)
    | DoReorder(permitted: bool, ids: seq<nat>, now: Time)
    | DoDeleteImage(permitted: bool, id: nat, now: Time)
    | DoUploadVideo(permitted: bool, now: Time)
    | DoDeleteVideo(permitted: bool, id: nat, now: Time)
    | DoExpire(now: Time)
    | DoPublishDemo(permitted: bool, now: Time)
    | DoQuote(permitted: bool, quote: Option<Quote>)
    | DoCheckout(permitted: bool, purpose: Purpose, quote: Option<Quote>, terms: Option<Terms>)
    | DoRenew(permitted: bool, terms: Option<Terms>, now: Time)
    | DoReceive(providerId: string, kind: EventKind, order: nat, amountMinor: nat, currency: string)
    | DoProcess(event: nat, now: Time)
    | DoLocalPayment(order: nat, now: Time)
    | DoRefund(now: Time)

  // The service's reading of the clock, if it takes one.
  function ClockOf(step: Step): Option<Time> {
    match step
    case DoModerate(_, now) => Some(now)
    case DoOwner(_, _, now) => Some(now)
    case DoEdit(_, _, _, now) => Some(now)
    case DoUploadImage(_, now) => Some(now)
    case DoReorder(_, _, now) => Some(now)
    case DoDeleteImage(_, _, now) => Some(now)
    case DoUploadVideo(_, now) => Some(now)
    case DoDeleteVideo(_, _, now) => Some(now)
    case DoExpire(now) => Some(now)
    case DoPublishDemo(_, now) => Some(now)
    case DoRenew(_, _, now) => Some(now)
    case DoProcess(_, now) => Some(now)
    case DoLocalPayment(_, now) => Some(now)
    case DoRefund(now) => Some(now)
    case _ => None
  }

  // No service of a run reads a time before t.
  ghost predicate NotBefore(t: Time, steps: seq<Step>) {
    forall i :: 0 <= i < |steps| && ClockOf(steps[i]).Some? ==> t <= ClockOf(steps[i]).value
  }

  // The clock of a run never goes back.
  ghost predicate Clocked(steps: seq<Step>) {
    forall i, j :: 0 <= i < j < |steps| && ClockOf(steps[i]).Some? && ClockOf(steps[j]).Some? ==>
      ClockOf(steps[i]).value <= ClockOf(steps[j]).value
  }

  function Apply(r: Record, step: Step): Outcome {
    match step
    case DoSubmit(permitted, flags) => Submit(r, permitted, flags)
    case DoClaim(permitted, actor, revision) => ClaimReview(r, permitted, actor, revision)
    case DoModerate(m, now) => Moderate(r, m, now)
    case DoOwner(permitted, action, now) => OwnerTransition(r, permitted, action, now)
    case DoEdit(permitted, required, maximum, now) => Edit(r, permitted, required, maximum, now)
    case DoUploadImage(permitted, now) => UploadImage(r, permitted, now)
    case DoReorder(permitted, ids, now) => ReorderImages(r, permitted, ids, now)
    case DoDeleteImage(permitted, id, now) => DeleteImage(r, permitted, id, now)
    case DoUploadVideo(permitted, now) => UploadVideo(r, permitted, now)
    case DoDeleteVideo(permitted, id, now) => DeleteVideo(r, permitted, id, now)
    case DoExpire(now) => Expire(r, now)
    case DoPublishDemo(permitted, now) => PublishDemo(r, permitted, now)
    case DoQuote(permitted, quote) => CreateQuote(r, permitted, quote)
    case DoCheckout(permitted, purpose, quote, terms) => CreateCheckout(r, permitted, purpose, quote, terms)
    case DoRenew(permitted, terms, now) => CreateRenewal(r, permitted, terms, now)
    case DoReceive(providerId, kind, order, amountMinor, currency) =>
      ReceiveEvent(r, providerId, kind, order, amountMinor, currency)
    case DoProcess(event, now) => ProcessEvent(r, event, now)
    case DoLocalPayment(order, now) => RecordLocalPayment(r, order, now)
    case DoRefund(now) => RefundRejected(r, now)
  }

  // An aborted service leaves the record as it was.
  function Next(r: Record, step: Step): Record {
    match Apply(r, step)
    case Ok(s) => s
    case Err(_) => r
  }

  function Run(r: Record, steps: seq<Step>): Record {
    if steps == [] then r else Next(Run(r, steps[..|steps| - 1]), steps[|steps| - 1])
  }

  // ---- the moderation history replays to the current status ----

  function Replay(audit: seq<Action>): Option<Status> {
    if audit == [] then Some(Draft)
    else
      var last := audit[|audit| - 1];
      if Replay(audit[..|audit| - 1]) == Some(last.from) then Some(last.to) else None
  }

  ghost predicate History(r: Record) {
    Replay(r.audit) == Some(r.status) && r.status != Submitted
  }

  lemma ReplayAppend(audit: seq<Action>, a: Action)
    requires Replay(audit) == Some(a.from)
    ensures Replay(audit + [a]) == Some(a.to)
  {
    assert (audit + [a])[..|audit|] == audit;
  }

  // Actions that record something but leave the status at s.
  ghost predicate Still(more: seq<Action>, s: Status) {
    forall a :: a in more ==> a.from == s && a.to == s
  }

  lemma {:induction false} ReplayStill(audit: seq<Action>, more: seq<Action>, s: Status)
    requires Replay(audit) == Some(s) && Still(more, s)
    ensures Replay(audit + more) == Some(s)
  {
    if more == [] {
      assert audit + more == audit;
    } else {
      var init, last := more[..|more| - 1], more[|more| - 1];
      assert more == init + [last];
      ReplayStill(audit, init, s);
      ReplayAppend(audit + init, last);
      assert audit + more == audit + init + [last];
    }
  }

  lemma {:induction false} VerdictsStill(ids: seq<nat>, verdicts: map<nat, Verdict>, s: Status, yes: ActionKind,
    no: ActionKind)
    ensures Still(VerdictActions(ids, verdicts, s, yes, no), s)
  {
    if ids != [] {
      VerdictsStill(ids[..|ids| - 1], verdicts, s, yes, no);
    }
  }

  // ---- dates, keys, money ----

  ghost predicate Dates(r: Record) {
    (r.publishedAt.Some? <==> r.status == Published) && (r.status == Published ==> r.firstPublishedAt.Some?)
  }

  ghost predicate KeysBelow(r: Record, bound: nat) {
    && (forall i :: 0 <= i < |r.outbox| ==> r.outbox[i].revision < bound)
    && (forall i, j :: 0 <= i < j < |r.outbox| ==> r.outbox[i] != r.outbox[j])
  }

  ghost predicate Keys(r: Record) {
    KeysBelow(r, r.revision + 1)
  }

  lemma EnqueuedFacts(r: Record, eventType: EventType)
    requires KeysBelow(r, r.revision)
    ensures Enqueued(r, eventType) == Ok(r.(outbox := r.outbox + [OutboxKey(eventType, r.revision)]))
    ensures Keys(Enqueued(r, eventType).value)
  {
  }

  ghost predicate NonePaid(orders: seq<Order>) {
    forall i :: 0 <= i < |orders| ==> orders[i].status != Paid
  }

  ghost predicate Money(r: Record) {
    && BooksOk(r.books)
    && Balanced(r.books)
    && (r.status == Rejected ==> NonePaid(r.books.orders))
    && (r.status == AwaitingPayment ==> HasOrder(r.books.orders, NewListing))
  }

  // What every reachable record satisfies, with no hypothesis on the run.
  ghost predicate Core(r: Record) {
    History(r) && Dates(r) && Keys(r) && Money(r) && Compact(r.images)
  }

  lemma CoreParts(r: Record)
    requires Core(r)
    ensures BooksOk(r.books) && Balanced(r.books) && Compact(r.images)
  {
  }

  // A status change that touches neither money nor media.
  lemma CoreMoved(r: Record, s: Record)
    requires Core(r) && s.books == r.books && s.images == r.images
    requires History(s) && Dates(s) && Keys(s)
    requires s.status != Rejected && s.status != AwaitingPayment
    ensures Core(s)
  {
  }

  lemma MovedKeeps(r: Record, kind: ActionKind, to: Status)
    requires Replay(r.audit) == Some(r.status) && Keys(r)
    ensures var m := Moved(r, kind, to); Replay(m.audit) == Some(to) && KeysBelow(m, m.revision)
  {
    ReplayAppend(r.audit, Action(kind, r.status, to));
  }

  // ---- each service keeps the core ----

  lemma SubmitKeeps(r: Record, permitted: bool, flags: nat)
    requires Core(r) && Submit(r, permitted, flags).Ok?
    ensures Core(Submit(r, permitted, flags).value)
  {
    var submitted := Moved(r, SubmittedAction, Submitted);
    MovedKeeps(r, SubmittedAction, Submitted);
    var inReview := Moved(submitted, SubmittedAction, InReview);
    MovedKeeps(submitted, SubmittedAction, InReview);
    var flagged := seq(flags, i => Action(PolicyFlagged, InReview, InReview));
    assert Still(flagged, InReview);
    ReplayStill(inReview.audit, flagged, InReview);
    CoreMoved(r, Submit(r, permitted, flags).value);
  }

  lemma ClaimKeeps(r: Record, permitted: bool, actor: nat, revision: int)
    requires Core(r) && ClaimReview(r, permitted, actor, revision).Ok?
    ensures Core(ClaimReview(r, permitted, actor, revision).value)
  {
    MovedKeeps(r, ClaimedAction, r.status);
    CoreMoved(r, ClaimReview(r, permitted, actor, revision).value);
  }

  lemma OwnerKeeps(r: Record, permitted: bool, action: OwnerAction, now: Time)
    requires Core(r) && OwnerMay(action, r.status) && permitted
    ensures OwnerTransition(r, permitted, action, now).Ok? && Core(OwnerTransition(r, permitted, action, now).value)
  {
    match action
    case MarkSold =>
      MovedKeeps(r, MarkedSold, Sold);
      var moved := Moved(r, MarkedSold, Sold).(
        firstPublishedAt := if r.firstPublishedAt.Some? then r.firstPublishedAt
                            else if r.publishedAt.Some? then r.publishedAt else Some(now),
        soldAt := Some(now), soldPublicUntil := Some(now + 30 * DAY), publishedAt := None);
      EnqueuedFacts(moved, ListingSold);
      CoreMoved(r, OwnerTransition(r, permitted, action, now).value);
    case Archive =>
      MovedKeeps(r, ArchivedAction, Archived);
      CoreMoved(r, OwnerTransition(r, permitted, action, now).value);
    case RestoreDraft =>
      MovedKeeps(r, RestoredDraft, Draft);
      CoreMoved(r, OwnerTransition(r, permitted, action, now).value);
  }

  lemma OwnerStepKeeps(r: Record, permitted: bool, action: OwnerAction, now: Time)
    requires Core(r) && OwnerTransition(r, permitted, action, now).Ok?
    ensures Core(OwnerTransition(r, permitted, action, now).value)
  {
    OwnerKeeps(r, permitted, action, now);
  }

  lemma ChangedKeeps(r: Record, now: Time)
    requires Core(r)
    ensures Core(Changed(r, now))
  {
    if r.status == Published {
      MovedKeeps(r.(content := r.content + 1), MaterialEdit, InReview);
      CoreMoved(r, Changed(r, now));
    }
  }

  // Content services: the images stay compact and the rest is a material edit.
  lemma ContentKeeps(r: Record, s: Record, now: Time)
    requires Core(r) && Compact(s.images)
    requires s == r.(images := s.images, videos := s.videos,
                     requiredImages := s.requiredImages, maximumImages := s.maximumImages)
    ensures Core(Changed(s, now))
  {
    ChangedKeeps(s, now);
  }

  lemma EditKeeps(r: Record, permitted: bool, required: nat, maximum: nat, now: Time)
    requires Core(r) && Edit(r, permitted, required, maximum, now).Ok?
    ensures Core(Edit(r, permitted, required, maximum, now).value)
  {
    assert Compact(r.images);
    PublishedIsSaved(r, now);
    hide Core, Compact;
    ContentKeeps(r, r.(requiredImages := required, maximumImages := maximum), now);
  }

  lemma PublishedIsSaved(r: Record, now: Time)
    requires Core(r)
    ensures Saved(r, now) == r
  {
  }

  lemma UploadImageKeeps(r: Record, permitted: bool, now: Time)
    requires Core(r) && UploadImage(r, permitted, now).Ok?
    ensures Core(UploadImage(r, permitted, now).value)
  {
    UploadedFacts(r.images);
    hide Core, Uploaded;
    ContentKeeps(r, r.(images := Uploaded(r.images)), now);
  }

  lemma ReorderKeeps(r: Record, permitted: bool, ids: seq<nat>, now: Time)
    requires Core(r) && ReorderImages(r, permitted, ids, now).Ok?
    ensures Core(ReorderImages(r, permitted, ids, now).value)
  {
    ReorderedFacts(r.images, ids);
    hide Core, Reordered, Compact;
    ContentKeeps(r, r.(images := Reordered(r.images, ids)), now);
  }

  lemma DeleteImageKeeps(r: Record, permitted: bool, id: nat, now: Time)
    requires Core(r) && DeleteImage(r, permitted, id, now).Ok?
    ensures Core(DeleteImage(r, permitted, id, now).value)
  {
    DeletedFacts(r.images, id);
    hide Core, Deleted;
    ContentKeeps(r, r.(images := Deleted(r.images, id)), now);
  }

  lemma UploadVideoKeeps(r: Record, permitted: bool, now: Time)
    requires Core(r) && UploadVideo(r, permitted, now).Ok?
    ensures Core(UploadVideo(r, permitted, now).value)
  {
    ContentKeeps(r, r.(videos := r.videos + [Video(true, PendingReview, "")]), now);
  }

  lemma DeleteVideoKeeps(r: Record, permitted: bool, id: nat, now: Time)
    requires Core(r) && DeleteVideo(r, permitted, id, now).Ok?
    ensures Core(DeleteVideo(r, permitted, id, now).value)
  {
    ContentKeeps(r, r.(videos := r.videos[id := r.videos[id].(ready := false)]), now);
  }

  lemma ExpireKeeps(r: Record, now: Time)
    requires Core(r)
    ensures Expire(r, now).Ok? && Core(Expire(r, now).value)
  {
    if Due(r, now) {
      MovedKeeps(r, ExpiredAction, Expired);
      EnqueuedFacts(Moved(r, ExpiredAction, Expired).(publishedAt := None), ListingExpired);
      CoreMoved(r, Expire(r, now).value);
    }
  }

  lemma PublishDemoKeeps(r: Record, permitted: bool, now: Time)
    requires Core(r) && PublishDemo(r, permitted, now).Ok?
    ensures Core(PublishDemo(r, permitted, now).value)
  {
    if r.status == Draft {
      MovedKeeps(r, DirectApproval, Published);
      CoreMoved(r, PublishDemo(r, permitted, now).value);
    }
  }

  lemma QuoteAddsUp(q: Quote)
    ensures QuoteOrder(q).totalMinor == LinesTotal(QuoteOrder(q).lines)
  {
    var lines := QuoteOrder(q).lines;
    assert lines[..1] == [Line(q.primaryMinor, 1, DaysOr30(q.primaryDays))];
    assert LinesTotal(lines[..1]) == q.primaryMinor;
  }

  lemma RenewalAddsUp(t: Terms)
    requires t.durationDays.Some?
    ensures RenewalOrder(t).totalMinor == LinesTotal(RenewalOrder(t).lines)
  {
    assert RenewalOrder(t).lines[..0] == [];
  }

  lemma QuoteKeeps(r: Record, permitted: bool, quote: Option<Quote>)
    requires BooksOk(r.books) && Balanced(r.books) && CreateQuote(r, permitted, quote).Ok?
    ensures var s := CreateQuote(r, permitted, quote).value;
      BooksOk(s.books) && Balanced(s.books) && HasOrder(s.books.orders, NewListing)
  {
    if !HasOrder(r.books.orders, NewListing) {
      QuoteAddsUp(quote.value);
      OrderKeepsBooks(r.books, QuoteOrder(quote.value));
      var s := CreateQuote(r, permitted, quote).value;
      assert s.books.orders[|r.books.orders|].purpose == NewListing;
    }
  }

  lemma CheckoutKeeps(r: Record, permitted: bool, purpose: Purpose, quote: Option<Quote>, terms: Option<Terms>)
    requires Core(r) && CreateCheckout(r, permitted, purpose, quote, terms).Ok?
    ensures Core(CreateCheckout(r, permitted, purpose, quote, terms).value)
  {
    var s := CreateCheckout(r, permitted, purpose, quote, terms).value;
    if purpose == NewListing {
      QuoteKeeps(r, permitted, quote);
    } else if s != r {
      RenewalAddsUp(terms.value);
      OrderKeepsBooks(r.books, RenewalOrder(terms.value));
    }
  }

  lemma QuoteStepKeeps(r: Record, permitted: bool, quote: Option<Quote>)
    requires Core(r) && CreateQuote(r, permitted, quote).Ok?
    ensures Core(CreateQuote(r, permitted, quote).value)
  {
    QuoteKeeps(r, permitted, quote);
  }

  lemma RenewKeeps(r: Record, permitted: bool, terms: Option<Terms>, now: Time)
    requires Core(r) && CreateRenewal(r, permitted, terms, now).Ok?
    ensures Core(CreateRenewal(r, permitted, terms, now).value)
  {
    hide Core, CreateCheckout;
    CheckoutKeeps(r, permitted, Renewal, None, terms);
  }

  // ---- payments ----

  // The renewed row before its event is enqueued.
  function Renewed(r: Record, o: Order, now: Time): Record
    requires |o.lines| == 1
  {
    Saved(Moved(r, RenewedAction, Published).(publishedAt := Some(now),
                                              expiresAt := Some(now + o.lines[0].durationDays * DAY)), now)
  }

  lemma KeysCarryOver(m: Record, s: Record)
    requires KeysBelow(m, m.revision) && s.outbox == m.outbox && s.revision == m.revision
    ensures KeysBelow(s, s.revision) && Keys(s)
  {
  }

  // A row that moved to PUBLISHED and got its dates.
  lemma PublishedRow(r: Record, kind: ActionKind, s: Record)
    requires Core(r)
    requires var m := Moved(r, kind, Published);
      s.audit == m.audit && s.outbox == m.outbox && s.revision == m.revision && s.status == Published
    requires s.publishedAt.Some? && s.firstPublishedAt.Some?
    ensures History(s) && Dates(s) && KeysBelow(s, s.revision) && Keys(s)
  {
    hide Money, Compact, KeysBelow;
    MovedKeeps(r, kind, Published);
    KeysCarryOver(Moved(r, kind, Published), s);
  }

  lemma RenewedFacts(r: Record, o: Order, now: Time)
    requires Core(r) && |o.lines| == 1
    ensures var s := Renewed(r, o, now);
      && History(s) && Dates(s) && KeysBelow(s, s.revision) && s.status == Published
      && s.books == r.books && s.images == r.images
  {
    hide Core, History, Dates, KeysBelow;
    PublishedRow(r, RenewedAction, Renewed(r, o, now));
  }

  lemma PaidRenewalFacts(r: Record, o: Order, now: Time)
    requires Core(r)
    ensures PaidRenewal(r, o, now).Ok? <==> |o.lines| == 1 && InGrace(r, now)
    ensures PaidRenewal(r, o, now).Ok? ==>
      var s := PaidRenewal(r, o, now).value;
      History(s) && Dates(s) && Keys(s) && s.status == Published && s.books == r.books && s.images == r.images
  {
    hide Core, KeysBelow, Moved, Saved;
    if |o.lines| == 1 && InGrace(r, now) {
      RenewedFacts(r, o, now);
      EnqueuedFacts(Renewed(r, o, now), ListingApproved);
    } else if |o.lines| == 1 && r.expiresAt.Some? {
      assert !InGrace(r, now);
    }
  }

  lemma PaidPublicationFacts(r: Record, o: Order, now: Time)
    requires Core(r)
    ensures var s := PaidPublication(r, o, now);
      History(s) && Dates(s) && Keys(s) && s.status == Published && s.books == r.books && s.images == r.images
  {
    hide Core, History, Dates, Keys, KeysBelow;
    PublishedRow(r, Approved, PaidPublication(r, o, now));
  }

  lemma OrdersKeepPurpose(orders: seq<Order>, more: seq<Order>, purpose: Purpose)
    requires HasOrder(orders, purpose) && |orders| <= |more|
    requires forall i :: 0 <= i < |orders| ==> more[i].purpose == orders[i].purpose
    ensures HasOrder(more, purpose)
  {
    var i :| 0 <= i < |orders| && orders[i].purpose == purpose;
    assert more[i].purpose == purpose;
  }

  lemma CloseKeeps(r: Record, i: nat, e: PaymentEvent)
    requires Core(r) && i < |r.books.events|
    requires r.books.events[i].status != Processed && e.status != Processed
    requires e == r.books.events[i].(status := e.status, processedAt := e.processedAt, failureReason := e.failureReason)
    requires e.order < |r.books.orders|
    requires e.status == Ignored && e.key.LocalPayment? ==> r.books.orders[e.order].status != Pending
    ensures Core(WithEvent(r, i, e))
  {
    CloseKeepsBooks(r.books, i, e);
  }

  // A record s that moved like its order: the event and the order follow.
  lemma SettleKeeps(r: Record, s: Record, i: nat, e: PaymentEvent, o: Order)
    requires Core(r) && i < |r.books.events| && r.books.events[i].status != Processed
    requires e == r.books.events[i].(status := Processed, processedAt := e.processedAt)
    requires e.order < |r.books.orders| && Matches(e, r.books.orders[e.order])
      && OrderForward(r.books.orders[e.order], o)
    requires History(s) && Dates(s) && Keys(s) && s.books == r.books && s.images == r.images
    requires
      || (e.kind == PaymentSucceeded && r.books.orders[e.order].status == Pending && o.status == Paid
        && o.paidAt.Some? && s.status == Published)
      || (e.kind == ChargeRefunded && r.books.orders[e.order].status == Paid && o.status == Refunded
        && s.status == r.status)
    ensures Core(WithEvent(WithOrder(s, e.order, o), i, e))
  {
    SettleKeepsBooks(r.books, i, e, o);
    if s.status == AwaitingPayment {
      OrdersKeepPurpose(r.books.orders, r.books.orders[e.order := o], NewListing);
    }
  }

  lemma RefundEventKeeps(r: Record, i: nat, now: Time)
    requires Core(r) && i < |r.books.events| && r.books.events[i].order < |r.books.orders|
    requires r.books.events[i].status != Processed && r.books.events[i].status != Ignored
      && r.books.events[i].kind == ChargeRefunded
    ensures ProcessEvent(r, i, now).Ok? && Core(ProcessEvent(r, i, now).value)
  {
    var e := r.books.events[i];
    var o := r.books.orders[e.order];
    assert EventOk(r.books, e) && OrderOk(r.books, e.order);
    var done := e.(processedAt := Some(now));
    if !Matches(e, o) {
      CloseKeeps(r, i, done.(status := FailedEvent, failureReason := RefundMismatch));
    } else if o.status == Refunded || o.status == Pending {
      CloseKeeps(r, i, done.(status := Ignored));
    } else {
      SettleKeeps(r, r, i, done.(status := Processed), o.(status := Refunded));
    }
  }

  lemma PaymentEventKeeps(r: Record, i: nat, now: Time)
    requires Core(r) && i < |r.books.events| && r.books.events[i].order < |r.books.orders|
    requires r.books.events[i].status != Processed && r.books.events[i].status != Ignored
      && r.books.events[i].kind == PaymentSucceeded
    requires ProcessEvent(r, i, now).Ok?
    ensures Core(ProcessEvent(r, i, now).value)
  {
    var e := r.books.events[i];
    var o := r.books.orders[e.order];
    assert EventOk(r.books, e) && OrderOk(r.books, e.order);
    var done := e.(processedAt := Some(now));
    if !Matches(e, o) {
      CloseKeeps(r, i, done.(status := FailedEvent, failureReason := PaymentMismatch));
    } else if o.status != Pending {
      CloseKeeps(r, i, done.(status := Ignored));
    } else if o.purpose == Renewal {
      PaidRenewalFacts(r, o, now);
      SettleKeeps(r, PaidRenewal(r, o, now).value, i, done.(status := Processed), PaidOrder(o, now));
    } else if r.status != AwaitingPayment {
      CloseKeeps(r, i, done.(status := FailedEvent, failureReason := NotAwaiting));
    } else if !EnoughApproved(r) {
      CloseKeeps(r, i, done.(status := FailedEvent, failureReason := ImagesMissing));
    } else {
      PaidPublicationFacts(r, o, now);
      SettleKeeps(r, PaidPublication(r, o, now), i, done.(status := Processed), PaidOrder(o, now));
    }
  }

  lemma ProcessKeeps(r: Record, i: nat, now: Time)
    requires Core(r) && ProcessEvent(r, i, now).Ok?
    ensures Core(ProcessEvent(r, i, now).value)
  {
    var e := r.books.events[i];
    if e.status != Processed && e.status != Ignored {
      if e.kind == ChargeRefunded {
        RefundEventKeeps(r, i, now);
      } else if e.kind == PaymentSucceeded {
        PaymentEventKeeps(r, i, now);
      } else {
        assert EventOk(r.books, e);
        CloseKeeps(r, i, e.(processedAt := Some(now), status := Ignored));
      }
    }
  }

  lemma ReceiveKeeps(r: Record, e: PaymentEvent)
    requires Core(r) && e.status == Received && EventOk(r.books, e) && FindEvent(r.books.events, e.key).None?
    ensures Core(r.(books := r.books.(events := r.books.events + [e])))
  {
    ReceiveKeepsBooks(r.books, e);
  }

  lemma ReceiveStepKeeps(r: Record, id: string, kind: EventKind, order: nat, amountMinor: nat, currency: string)
    requires Core(r) && ReceiveEvent(r, id, kind, order, amountMinor, currency).Ok?
    ensures Core(ReceiveEvent(r, id, kind, order, amountMinor, currency).value)
  {
    ReceiveKeeps(r, PaymentEvent(Provider(id), kind, order, amountMinor, currency, Received, None, NoReason));
  }

  lemma LocalPaymentKeeps(r: Record, order: nat, now: Time)
    requires Core(r) && RecordLocalPayment(r, order, now).Ok?
    ensures Core(RecordLocalPayment(r, order, now).value)
  {
    var found := FindEvent(r.books.events, LocalPayment(order));
    if found.Some? {
      ProcessKeeps(r, found.value, now);
    } else {
      var o := r.books.orders[order];
      var e := PaymentEvent(LocalPayment(order), PaymentSucceeded, order, o.totalMinor, o.currency, Received, None,
        NoReason);
      ReceiveKeeps(r, e);
      ProcessKeeps(r.(books := r.books.(events := r.books.events + [e])), |r.books.events|, now);
    }
  }

  lemma NotRefundedBefore(b: Books, order: nat)
    requires BooksOk(b) && order < |b.orders| && b.orders[order].status == Paid
    ensures FindEvent(b.events, LocalRefund(order)).None?
  {
    forall i | 0 <= i < |b.events|
      ensures b.events[i].key != LocalRefund(order)
    {
      assert EventOk(b, b.events[i]);
    }
  }

  // The refund of one paid order always goes through.
  lemma RefundOne(r: Record, order: nat, now: Time)
    requires BooksOk(r.books) && order < |r.books.orders| && r.books.orders[order].status == Paid
    ensures var f := ProcessLocal(r, LocalRefund(order), ChargeRefunded, order, now);
      && f.Ok? && f.value == r.(books := f.value.books) && BooksOk(f.value.books)
      && (Balanced(r.books) ==> Balanced(f.value.books))
      && f.value.books.orders == r.books.orders[order := r.books.orders[order].(status := Refunded)]
      && |f.value.books.events| == |r.books.events| + 1 && r.books.events <= f.value.books.events
  {
    var o := r.books.orders[order];
    NotRefundedBefore(r.books, order);
    var e := PaymentEvent(LocalRefund(order), ChargeRefunded, order, o.totalMinor, o.currency, Received, None,
      NoReason);
    var done := e.(status := Processed, processedAt := Some(now));
    RefundKeepsBooks(r.books, order, done, o.(status := Refunded));
    assert (r.books.events + [e])[|r.books.events| := done] == r.books.events + [done];
  }

  // The refund loop leaves no order among the first n paid and the others alone.
  lemma {:induction false} RefundKeeps(r: Record, n: nat, now: Time)
    requires BooksOk(r.books) && n <= |r.books.orders|
    ensures var f := RefundPaid(r, n, now);
      && f.Ok? && f.value == r.(books := f.value.books) && BooksOk(f.value.books)
      && (Balanced(r.books) ==> Balanced(f.value.books))
      && |f.value.books.orders| == |r.books.orders| && r.books.events <= f.value.books.events
      && (forall i :: 0 <= i < |r.books.orders| ==>
            f.value.books.orders[i] ==
            if i < n && r.books.orders[i].status == Paid then r.books.orders[i].(status := Refunded)
              else r.books.orders[i])
  {
    hide BooksOk, Balanced, ProcessLocal;
    if n > 0 {
      RefundKeeps(r, n - 1, now);
      var before := RefundPaid(r, n - 1, now).value;
      if before.books.orders[n - 1].status == Paid {
        RefundOne(before, n - 1, now);
      }
    }
  }

  lemma RefundRejectedKeeps(r: Record, now: Time)
    requires BooksOk(r.books)
    ensures var f := RefundRejected(r, now);
      && f.Ok? && f.value == r.(books := f.value.books) && BooksOk(f.value.books)
      && (Balanced(r.books) ==> Balanced(f.value.books))
      && NonePaid(f.value.books.orders) && |f.value.books.orders| == |r.books.orders|
      && r.books.events <= f.value.books.events
      && (forall i :: 0 <= i < |r.books.orders| ==> OrderForward(r.books.orders[i], f.value.books.orders[i]))
  {
    RefundKeeps(r, |r.books.orders|, now);
  }

  lemma RefundStepKeeps(r: Record, now: Time)
    requires Core(r)
    ensures RefundRejected(r, now).Ok? && Core(RefundRejected(r, now).value)
  {
    RefundRejectedKeeps(r, now);
    if HasOrder(r.books.orders, NewListing) {
      OrdersKeepPurpose(r.books.orders, RefundRejected(r, now).value.books.orders, NewListing);
    }
  }

  // ---- moderation ----

  // Review decisions change only the media's review columns and the history.
  lemma ImagesReviewedKeeps(r: Record, verdicts: map<nat, Verdict>)
    requires Core(r) && ImagesReviewed(r, verdicts).Ok?
    ensures var s := ImagesReviewed(r, verdicts).value;
      && Core(s) && s == r.(images := s.images, audit := s.audit) && r.audit <= s.audit
      && ReadySet(s.images) == ReadySet(r.images)
  {
    var s := ImagesReviewed(r, verdicts).value;
    var more := VerdictActions(ReadyInOrder(r.images), verdicts, r.status, ImageApproved, ImageRejected);
    VerdictsStill(ReadyInOrder(r.images), verdicts, r.status, ImageApproved, ImageRejected);
    ReplayStill(r.audit, more, r.status);
    SameOrderings(r.images, s.images);
  }

  lemma VideosReviewedKeeps(r: Record, verdicts: map<nat, Verdict>)
    requires Core(r) && VideosReviewed(r, verdicts).Ok?
    ensures var s := VideosReviewed(r, verdicts).value;
      && Core(s) && s == r.(videos := s.videos, audit := s.audit) && r.audit <= s.audit
  {
    var more := VerdictActions(ReadyVideos(r.videos), verdicts, r.status, VideoApproved, VideoRejected);
    VerdictsStill(ReadyVideos(r.videos), verdicts, r.status, VideoApproved, VideoRejected);
    ReplayStill(r.audit, more, r.status);
  }

  lemma SameOrderings(a: seq<Image>, b: seq<Image>)
    requires Compact(a) && |a| == |b|
    requires forall i :: 0 <= i < |a| ==> a[i].ordering == b[i].ordering && a[i].ready == b[i].ready
    ensures Compact(b) && ReadySet(a) == ReadySet(b) && ReadyInOrder(a) == ReadyInOrder(b)
  {
    ReadyFacts(a);
    CompactFrom(b, ReadyInOrder(a));
  }

  lemma ModeratedPublicationFacts(r: Record, now: Time)
    requires ModeratedPublication(r, now).Ok?
    ensures var s := ModeratedPublication(r, now).value;
      && s == r.(publishedAt := Some(now), firstPublishedAt := s.firstPublishedAt,
                 lastMaterialEditAt := None, expiresAt := s.expiresAt)
      && s.firstPublishedAt == (if r.firstPublishedAt.Some? then r.firstPublishedAt else Some(now))
  {
  }

  // The status change of a moderation outcome.
  lemma DecidedKeeps(r: Record, actor: nat, outcome: ActionKind, now: Time)
    requires Core(r) && (IsApproval(outcome) || NeedsReason(outcome)) && Decided(r, actor, outcome, now).Ok?
    ensures var s := Decided(r, actor, outcome, now).value;
      && History(s) && Dates(s) && KeysBelow(s, s.revision) && s.status == TargetStatus(outcome)
      && s.books == r.books && s.images == r.images && s.videos == r.videos && s.content == r.content
      && s.outbox == r.outbox && s.revision == r.revision + 1
      && s.audit == r.audit + [Action(outcome, r.status, TargetStatus(outcome))]
      && s.approved == (if IsApproval(outcome) then Some(r.content) else r.approved)
      && (r.firstPublishedAt.Some? ==> s.firstPublishedAt == r.firstPublishedAt)
      && s.requiredImages == r.requiredImages
  {
    MovedKeeps(r, outcome, TargetStatus(outcome));
    var moved := Moved(r, outcome, TargetStatus(outcome)).(moderator := Some(actor));
    var decided := if IsApproval(outcome) then moved.(approved := Some(r.content)) else moved;
    if decided.status == Published {
      ModeratedPublicationFacts(decided, now);
    }
  }

  lemma ConcludedKeeps(r: Record, m: Moderation, outcome: ActionKind, now: Time)
    requires History(r) && Dates(r) && KeysBelow(r, r.revision) && BooksOk(r.books) && Balanced(r.books)
      && Compact(r.images)
    requires (IsApproval(outcome) || NeedsReason(outcome)) && r.status == TargetStatus(outcome)
    requires Concluded(r, m, outcome, now).Ok?
    ensures var s := Concluded(r, m, outcome, now).value;
      && Core(s) && s == r.(books := s.books, outbox := s.outbox)
  {
    hide Compact, Replay, RefundRejected;
    var s := Concluded(r, m, outcome, now).value;
    if outcome == ApprovedSendPaymentLink {
      QuoteKeeps(r, true, m.quote);
      EnqueuedFacts(CreateQuote(r, true, m.quote).value, PaymentReady);
    } else if outcome == RejectedAction {
      RefundRejectedKeeps(r, now);
      EnqueuedFacts(RefundRejected(r, now).value, ListingRejected);
    } else if outcome != SuspendedAction {
      EnqueuedFacts(r, OutcomeEvent(outcome).value);
    }
  }

  // The stages of a moderation that commits.
  lemma ModerateStages(r: Record, m: Moderation, now: Time)
    returns (reviewed: Record, outcome: ActionKind, decided: Record)
    requires Core(r) && Moderate(r, m, now).Ok?
    ensures AllowedOutcome(r, m).None? && ImagesReviewed(r, m.images).Ok?
    ensures VideosReviewed(ImagesReviewed(r, m.images).value, m.videos) == Ok(reviewed)
    ensures outcome == EffectiveOutcome(reviewed, m.outcome) && (IsApproval(outcome) || NeedsReason(outcome))
    ensures Decided(reviewed, m.actor, outcome, now) == Ok(decided)
    ensures Concluded(decided, m, outcome, now) == Moderate(r, m, now)
    ensures Core(reviewed) && r.audit <= reviewed.audit && ReadySet(reviewed.images) == ReadySet(r.images)
    ensures reviewed == r.(images := reviewed.images, videos := reviewed.videos, audit := reviewed.audit)
  {
    var withImages := ImagesReviewed(r, m.images).value;
    ImagesReviewedKeeps(r, m.images);
    reviewed := VideosReviewed(withImages, m.videos).value;
    VideosReviewedKeeps(withImages, m.videos);
    outcome := EffectiveOutcome(reviewed, m.outcome);
    decided := Decided(reviewed, m.actor, outcome, now).value;
  }

  lemma ModerateKeeps(r: Record, m: Moderation, now: Time)
    requires Core(r) && Moderate(r, m, now).Ok?
    ensures Core(Moderate(r, m, now).value)
  {
    var reviewed, outcome, decided := ModerateStages(r, m, now);
    DecidedKeeps(reviewed, m.actor, outcome, now);
    ConcludedKeeps(decided, m, outcome, now);
  }

  // ---- every step, every run ----

  lemma StepKeepsCore(r: Record, step: Step)
    requires Core(r)
    ensures Core(Next(r, step))
  {
    hide Core, Submit, ClaimReview, Moderate, OwnerTransition, Edit, UploadImage, ReorderImages, DeleteImage,
      UploadVideo, DeleteVideo, Expire, PublishDemo, CreateQuote, CreateCheckout, CreateRenewal, ReceiveEvent,
      ProcessEvent, RecordLocalPayment, RefundRejected;
    if Apply(r, step).Ok? {
      match step
      case DoSubmit(permitted, flags) => SubmitKeeps(r, permitted, flags);
      case DoClaim(permitted, actor, revision) => ClaimKeeps(r, permitted, actor, revision);
      case DoModerate(m, now) => ModerateKeeps(r, m, now);
      case DoOwner(permitted, action, now) => OwnerStepKeeps(r, permitted, action, now);
      case DoEdit(permitted, required, maximum, now) => EditKeeps(r, permitted, required, maximum, now);
      case DoUploadImage(permitted, now) => UploadImageKeeps(r, permitted, now);
      case DoReorder(permitted, ids, now) => ReorderKeeps(r, permitted, ids, now);
      case DoDeleteImage(permitted, id, now) => DeleteImageKeeps(r, permitted, id, now);
      case DoUploadVideo(permitted, now) => UploadVideoKeeps(r, permitted, now);
      case DoDeleteVideo(permitted, id, now) => DeleteVideoKeeps(r, permitted, id, now);
      case DoExpire(now) => ExpireKeeps(r, now);
      case DoPublishDemo(permitted, now) => PublishDemoKeeps(r, permitted, now);
      case DoQuote(permitted, quote) => QuoteStepKeeps(r, permitted, quote);
      case DoCheckout(permitted, purpose, quote, terms) => CheckoutKeeps(r, permitted, purpose, quote, terms);
      case DoRenew(permitted, terms, now) => RenewKeeps(r, permitted, terms, now);
      case DoReceive(providerId, kind, order, amountMinor, currency) =>
        ReceiveStepKeeps(r, providerId, kind, order, amountMinor, currency);
      case DoProcess(event, now) => ProcessKeeps(r, event, now);
      case DoLocalPayment(order, now) => LocalPaymentKeeps(r, order, now);
      case DoRefund(now) => RefundStepKeeps(r, now);
    }
  }

  lemma NewDraftCore(wanted: bool, required: nat, maximum: nat)
    ensures Core(NewDraft(wanted, required, maximum))
  {
  }

  lemma {:induction false} RunKeepsCore(r: Record, steps: seq<Step>)
    requires Core(r)
    ensures Core(Run(r, steps))
  {
    if steps != [] {
      RunKeepsCore(r, steps[..|steps| - 1]);
      StepKeepsCore(Run(r, steps[..|steps| - 1]), steps[|steps| - 1]);
    }
  }
}
