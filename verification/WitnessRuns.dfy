// Concrete runs of a listing without media, with a clock that never goes back:
// submitted, approved with a payment link, paid, renewed, expired, archived,
// restored, edited, and reviewed again.
module WitnessRuns {
  import opened Wrappers
  import opened EventTypes
  import opened Media
  import opened Ledger
  import opened Listings
  import opened Lifecycle
  import opened Publication

  const START := NewDraft(false, 0, 12)
  const TERMS := Terms(1000, "USD", Some(30))
  const EXPIRY := 30 * DAY

  // A run so far, and the last time its services read.
  ghost predicate ClockedUpTo(steps: seq<Step>, t: Time) {
    Clocked(steps) && forall i :: 0 <= i < |steps| && ClockOf(steps[i]).Some? ==> ClockOf(steps[i]).value <= t
  }

  // One more step, at a time from t to u.
  lemma ExtendAt(r: Record, steps: seq<Step>, step: Step, t: Time, u: Time) returns (more: seq<Step>)
    requires RegularRun(r, steps) && Regular(Run(r, steps), step) && ClockedUpTo(steps, t) && t <= u
    requires ClockOf(step).Some? ==> t <= ClockOf(step).value <= u
    ensures Run(r, more) == Next(Run(r, steps), step) && RegularRun(r, more) && ClockedUpTo(more, u)
  {
    hide Next, Regular, ClockOf;
    more := steps + [step];
    assert more[..|steps|] == steps;
  }

  // Publication of the primary county and some additional ones.
  function Prices(counties: nat): Quote {
    Quote(1000, 500, counties, 30, 30)
  }

  function Link(revision: nat, counties: nat): Moderation {
    Moderation(true, 1, revision, ApprovedSendPaymentLink, None, map[], map[], true, Some(Prices(counties)))
  }

  function Negative(revision: nat, outcome: ActionKind): Moderation {
    Moderation(true, 1, revision, outcome, Some(true), map[], map[], true, None)
  }

  // Moderation of a listing without media is its status change alone.
  lemma ModerateBare(r: Record, m: Moderation, now: Time)
    requires r.images == [] && r.videos == [] && r.requiredImages == 0 && m.images == map[] && m.videos == map[]
    requires AllowedOutcome(r, m).None? && (IsApproval(m.outcome) || NeedsReason(m.outcome))
    ensures Moderate(r, m, now) ==
      match Decided(r, m.actor, m.outcome, now)
      case Err(abort) => Err(abort)
      case Ok(decided) => Concluded(decided, m, m.outcome, now)
  {
    assert PendingImages(r.images) == {} && PendingVideos(r.videos) == {};
    assert ImagesReviewed(r, map[]) == Ok(r) by {
      assert ImagesReviewed(r, map[]).value.images == [];
      assert ImagesReviewed(r, map[]).value.audit == r.audit;
    }
    assert VideosReviewed(r, map[]) == Ok(r) by {
      assert VideosReviewed(r, map[]).value.videos == [];
      assert VideosReviewed(r, map[]).value.audit == r.audit;
    }
  }

  // What the runs keep: no media.
  ghost predicate Plain(r: Record, status: Status, revision: nat) {
    && Core(r) && r.status == status && r.revision == revision && !r.wanted
    && r.images == [] && r.videos == [] && r.requiredImages == 0
  }

  // No material edit of a published listing since approval either.
  ghost predicate Bare(r: Record, status: Status, revision: nat) {
    Plain(r, status, revision) && r.lastMaterialEditAt.None?
  }

  // The first order is the settled one for the first publication.
  ghost predicate FirstSettled(orders: seq<Order>) {
    orders != [] && orders[0].purpose == NewListing && orders[0].status != Pending
  }

  ghost predicate NoEvent(events: seq<PaymentEvent>, key: EventKey) {
    forall i :: 0 <= i < |events| ==> events[i].key != key
  }

  // An unpaid renewal, never tried, of a listing approved at content 0.
  ghost predicate RenewalOpen(r: Record) {
    && r.expiresAt == Some(EXPIRY) && r.approved == Some(0)
    && |r.books.orders| == 2 && r.books.orders[1] == RenewalOrder(TERMS)
    && NoEvent(r.books.events, LocalPayment(1))
  }

  lemma NoRenewalYet(r: Record, step: Step)
    requires forall o :: 0 <= o < |r.books.orders| ==> r.books.orders[o].purpose == NewListing
    ensures !SettlesRenewal(r, step)
  {
  }

  lemma RenewalLeftOpen(r: Record, step: Step)
    requires RenewalOpen(r) && RenewalOpen(Next(r, step)) && FirstSettled(r.books.orders)
    ensures !SettlesRenewal(r, step)
  {
    hide Apply, NoEvent;
  }

  lemma Step1()
    ensures Regular(START, DoSubmit(true, 0))
    ensures var r := Next(START, DoSubmit(true, 0));
      Bare(r, InReview, 2) && r.books == Books([], []) && r.content == 0
  {
    assert ReadySet([]) == {};
    SubmitKeeps(START, true, 0);
    NoRenewalYet(START, DoSubmit(true, 0));
  }

  function Linked(counties: nat): Books {
    Books([QuoteOrder(Prices(counties))], [])
  }

  lemma Step2(r: Record, counties: nat)
    requires Bare(r, InReview, 2) && r.books == Books([], []) && r.content == 0
    ensures Regular(r, DoModerate(Link(2, counties), 0))
    ensures var s := Next(r, DoModerate(Link(2, counties), 0));
      && Bare(s, AwaitingPayment, 3) && s.books == Linked(counties) && s.content == 0 && s.approved == Some(0)
      && OutboxKey(PaymentReady, 3) in s.outbox
  {
    hide History, Keys, Balanced, BooksOk, Compact, Moderate, SettlesRenewal;
    ModerateBare(r, Link(2, counties), 0);
    DecidedKeeps(r, 1, ApprovedSendPaymentLink, 0);
    var decided := Decided(r, 1, ApprovedSendPaymentLink, 0).value;
    assert CreateQuote(decided, true, Link(2, counties).quote).value.books == Linked(counties);
    EnqueuedFacts(CreateQuote(decided, true, Link(2, counties).quote).value, PaymentReady);
    ModerateKeeps(r, Link(2, counties), 0);
    NoRenewalYet(r, DoModerate(Link(2, counties), 0));
  }

  lemma Step3(r: Record, counties: nat)
    requires Bare(r, AwaitingPayment, 3) && r.books == Linked(counties) && r.content == 0 && r.approved == Some(0)
    ensures Regular(r, DoLocalPayment(0, 0))
    ensures var s := Next(r, DoLocalPayment(0, 0));
      && Bare(s, Published, 4) && s.content == 0 && s.approved == Some(0) && s.expiresAt == Some(EXPIRY)
      && |s.books.orders| == 1 && FirstSettled(s.books.orders)
      && s.books.orders[0].status == Paid && s.books.orders[0].lines == QuoteOrder(Prices(counties)).lines
      && NoEvent(s.books.events, LocalPayment(1))
  {
    hide ProcessEvent, ProcessLocal, RecordLocalPayment, FindEvent, History, Keys, Money, Compact;
    NoRenewalYet(r, DoLocalPayment(0, 0));
    Step3Row(r, counties);
    LocalPaymentKeeps(r, 0, 0);
  }

  // The first payment of a bare listing publishes it for thirty days.
  lemma Step3Row(r: Record, counties: nat)
    requires r.status == AwaitingPayment && r.images == [] && r.requiredImages == 0 && r.books == Linked(counties)
      && !r.wanted
    ensures RecordLocalPayment(r, 0, 0).Ok?
    ensures var s := RecordLocalPayment(r, 0, 0).value;
      && s.status == Published && s.revision == r.revision + 1 && s.expiresAt == Some(EXPIRY)
      && s == r.(status := s.status, revision := s.revision, audit := s.audit, publishedAt := s.publishedAt,
                 firstPublishedAt := s.firstPublishedAt, expiresAt := s.expiresAt, books := s.books)
      && |s.books.orders| == 1 && FirstSettled(s.books.orders)
      && s.books.orders[0].status == Paid && s.books.orders[0].lines == QuoteOrder(Prices(counties)).lines
      && NoEvent(s.books.events, LocalPayment(1))
  {
    assert ApprovedImages([]) == {};
    var o := r.books.orders[0];
    var e := PaymentEvent(LocalPayment(0), PaymentSucceeded, 0, o.totalMinor, o.currency, Received, None, NoReason);
    assert [e][0 := e.(status := Processed, processedAt := Some(0))]
      == [e.(status := Processed, processedAt := Some(0))];
  }

  lemma Step4(r: Record)
    requires Bare(r, Published, 4) && r.content == 0 && r.approved == Some(0) && r.expiresAt == Some(EXPIRY)
    requires |r.books.orders| == 1 && FirstSettled(r.books.orders) && NoEvent(r.books.events, LocalPayment(1))
    ensures Regular(r, DoRenew(true, Some(TERMS), 0))
    ensures var s := Next(r, DoRenew(true, Some(TERMS), 0));
      Bare(s, Published, 4) && RenewalOpen(s) && s.content == 0 && FirstSettled(s.books.orders)
  {
    NoRenewalYet(r, DoRenew(true, Some(TERMS), 0));
    CheckoutKeeps(r, true, Renewal, None, Some(TERMS));
  }

  lemma Step5(r: Record)
    requires Bare(r, Published, 4) && RenewalOpen(r) && FirstSettled(r.books.orders)
    ensures Regular(r, DoExpire(EXPIRY))
    ensures var s := Next(r, DoExpire(EXPIRY));
      Bare(s, Expired, 5) && RenewalOpen(s) && s.content == r.content && s.books == r.books
  {
    ExpireKeeps(r, EXPIRY);
    RenewalLeftOpen(r, DoExpire(EXPIRY));
  }

  // The owner archives, restores or edits, or submits again.
  lemma StepOwner(r: Record, status: Status, revision: nat, step: Step)
    requires Bare(r, status, revision) && RenewalOpen(r) && FirstSettled(r.books.orders)
    requires
      || (step == DoOwner(true, Archive, EXPIRY) && (status == Expired || status == Draft))
      || (step == DoOwner(true, RestoreDraft, EXPIRY) && status == Archived)
      || (step == DoEdit(true, 0, 12, EXPIRY) && status == Draft)
      || (step == DoSubmit(true, 0) && status == Draft)
    ensures Regular(r, step)
    ensures var s := Next(r, step);
      && RenewalOpen(s) && s.books == r.books
      && s.content == (if step.DoEdit? then r.content + 1 else r.content)
      && (step.DoEdit? ==> Bare(s, Draft, revision))
      && (step.DoSubmit? ==> Bare(s, InReview, revision + 2))
      && (step.DoOwner? ==> Bare(s, if step.action == Archive then Archived else Draft, revision + 1))
  {
    StepKeepsCore(r, step);
    assert ReadySet([]) == {};
    RenewalLeftOpen(r, step);
  }

  // A moderator sends it back, rejects it or suspends it.
  lemma StepNegative(r: Record, revision: nat, outcome: ActionKind)
    requires Bare(r, InReview, revision) && RenewalOpen(r) && FirstSettled(r.books.orders)
    requires NeedsReason(outcome)
    ensures Regular(r, DoModerate(Negative(revision, outcome), EXPIRY))
    ensures var s := Next(r, DoModerate(Negative(revision, outcome), EXPIRY));
      Core(s) && RenewalOpen(s) && s.status == TargetStatus(outcome) && s.content == r.content
        && s.lastMaterialEditAt.None?
  {
    hide History, Keys, Balanced, BooksOk, Compact, Concluded, SettlesRenewal, Moderate;
    var m := Negative(revision, outcome);
    ModerateBare(r, m, EXPIRY);
    DecidedKeeps(r, 1, outcome, EXPIRY);
    var decided := Decided(r, 1, outcome, EXPIRY).value;
    ConcludedOpen(decided, m, outcome);
    ModerateKeeps(r, m, EXPIRY);
    RenewalLeftOpen(r, DoModerate(m, EXPIRY));
  }

  lemma ConcludedOpen(r: Record, m: Moderation, outcome: ActionKind)
    requires KeysBelow(r, r.revision) && BooksOk(r.books) && RenewalOpen(r) && NeedsReason(outcome)
    requires FirstSettled(r.books.orders)
    ensures Concluded(r, m, outcome, EXPIRY).Ok?
    ensures var s := Concluded(r, m, outcome, EXPIRY).value;
      && RenewalOpen(s) && s == r.(books := s.books, outbox := s.outbox) && FirstSettled(s.books.orders)
  {
    hide BooksOk, Balanced, RefundRejected;
    if outcome == RejectedAction {
      RefundRejectedKeeps(r, EXPIRY);
      RefundKeepsOpen(r);
      EnqueuedFacts(RefundRejected(r, EXPIRY).value, ListingRejected);
    } else if outcome == ChangesRequestedAction {
      EnqueuedFacts(r, ListingChangesRequested);
    }
  }

  // The refund loop adds only its own refund events.
  lemma RefundAdds(r: Record, order: nat, now: Time, key: EventKey)
    requires BooksOk(r.books) && order < |r.books.orders| && r.books.orders[order].status == Paid
    requires !key.LocalRefund? && NoEvent(r.books.events, key)
    ensures var f := ProcessLocal(r, LocalRefund(order), ChargeRefunded, order, now);
      f.Ok? && NoEvent(f.value.books.events, key)
  {
    NotRefundedBefore(r.books, order);
  }

  lemma {:induction false} RefundsAddRefunds(r: Record, n: nat, now: Time, key: EventKey)
    requires BooksOk(r.books) && n <= |r.books.orders|
    requires !key.LocalRefund? && NoEvent(r.books.events, key)
    ensures RefundPaid(r, n, now).Ok? && NoEvent(RefundPaid(r, n, now).value.books.events, key)
  {
    hide ProcessLocal, BooksOk, NoEvent, Balanced;
    if n > 0 {
      RefundsAddRefunds(r, n - 1, now, key);
      RefundKeeps(r, n - 1, now);
      var before := RefundPaid(r, n - 1, now).value;
      if before.books.orders[n - 1].status == Paid {
        RefundAdds(before, n - 1, now, key);
      }
    }
  }

  lemma RefundKeepsOpen(r: Record)
    requires BooksOk(r.books) && RenewalOpen(r)
    ensures RefundRejected(r, EXPIRY).Ok? && RenewalOpen(RefundRejected(r, EXPIRY).value)
  {
    RefundKeeps(r, |r.books.orders|, EXPIRY);
    RefundsAddRefunds(r, |r.books.orders|, EXPIRY, LocalPayment(1));
  }

  // Approved with a link again while the renewal is open: the settled order is found.
  lemma StepLink(r: Record)
    requires Bare(r, InReview, 9) && RenewalOpen(r) && r.content == 0 && FirstSettled(r.books.orders)
    ensures Regular(r, DoModerate(Link(9, 0), EXPIRY))
    ensures var s := Next(r, DoModerate(Link(9, 0), EXPIRY));
      Bare(s, AwaitingPayment, 10) && RenewalOpen(s) && FirstSettled(s.books.orders) && s.books == r.books
  {
    hide History, Keys, Balanced, BooksOk, Compact, Moderate, SettlesRenewal, RenewalOrder;
    var m := Link(9, 0);
    ModerateBare(r, m, EXPIRY);
    DecidedKeeps(r, 1, ApprovedSendPaymentLink, EXPIRY);
    var decided := Decided(r, 1, ApprovedSendPaymentLink, EXPIRY).value;
    assert HasOrder(decided.books.orders, NewListing);
    assert CreateQuote(decided, true, m.quote) == Ok(decided);
    EnqueuedFacts(decided, PaymentReady);
    ModerateKeeps(r, m, EXPIRY);
    RenewalLeftOpen(r, DoModerate(m, EXPIRY));
  }

  // An edit of the published listing, before any renewal.
  lemma StepEdit(r: Record)
    requires Bare(r, Published, 4) && FirstSettled(r.books.orders) && |r.books.orders| == 1
    ensures Regular(r, DoEdit(true, 0, 12, 0))
    ensures var s := Next(r, DoEdit(true, 0, 12, 0));
      Plain(s, InReview, 5) && s.books == r.books && s.lastMaterialEditAt.Some?
  {
    hide History, Keys, Balanced, BooksOk, SettlesRenewal, Core;
    EditKeeps(r, true, 0, 12, 0);
    NoRenewalYet(r, DoEdit(true, 0, 12, 0));
  }

  // Approved with a link again after that edit.
  lemma StepRelink(r: Record)
    requires Plain(r, InReview, 5) && FirstSettled(r.books.orders) && |r.books.orders| == 1
      && r.lastMaterialEditAt.Some?
    ensures Regular(r, DoModerate(Link(5, 0), 0))
    ensures var s := Next(r, DoModerate(Link(5, 0), 0));
      Plain(s, AwaitingPayment, 6) && s.books == r.books && s.lastMaterialEditAt.Some?
  {
    hide History, Keys, Balanced, BooksOk, Compact, Moderate, SettlesRenewal;
    var m := Link(5, 0);
    ModerateBare(r, m, 0);
    DecidedKeeps(r, 1, ApprovedSendPaymentLink, 0);
    var decided := Decided(r, 1, ApprovedSendPaymentLink, 0).value;
    assert HasOrder(decided.books.orders, NewListing);
    assert CreateQuote(decided, true, m.quote) == Ok(decided);
    EnqueuedFacts(decided, PaymentReady);
    ModerateKeeps(r, m, 0);
    NoRenewalYet(r, DoModerate(m, 0));
  }

  // ---- the runs put together ----

  // Waiting for its first payment.
  lemma ReachLinked(counties: nat) returns (steps: seq<Step>)
    ensures RegularRun(START, steps) && ClockedUpTo(steps, 0)
    ensures var r := Run(START, steps);
      Bare(r, AwaitingPayment, 3) && r.books == Linked(counties) && r.content == 0 && r.approved == Some(0)
      && OutboxKey(PaymentReady, 3) in r.outbox
  {
    hide Core, Next, Regular, RegularRun, Run;
    EmptyRun(START);
    Step1();
    steps := ExtendAt(START, [], DoSubmit(true, 0), 0, 0);
    Step2(Run(START, steps), counties);
    steps := ExtendAt(START, steps, DoModerate(Link(2, counties), 0), 0, 0);
  }

  // Paid and published.
  lemma ReachPaid(counties: nat) returns (steps: seq<Step>)
    ensures RegularRun(START, steps) && ClockedUpTo(steps, 0)
    ensures var r := Run(START, steps);
      && Bare(r, Published, 4) && r.content == 0 && r.approved == Some(0) && r.expiresAt == Some(EXPIRY)
      && |r.books.orders| == 1 && FirstSettled(r.books.orders) && NoEvent(r.books.events, LocalPayment(1))
      && r.books.orders[0].status == Paid && r.books.orders[0].lines == QuoteOrder(Prices(counties)).lines
  {
    hide Core, Next, Regular, RegularRun, Run;
    steps := ReachLinked(counties);
    Step3(Run(START, steps), counties);
    steps := ExtendAt(START, steps, DoLocalPayment(0, 0), 0, 0);
  }

  // Paid, edited and back in review.
  lemma ReachReedited(counties: nat) returns (steps: seq<Step>)
    ensures RegularRun(START, steps) && ClockedUpTo(steps, 0)
    ensures var r := Run(START, steps);
      && Plain(r, InReview, 5) && r.lastMaterialEditAt.Some? && |r.books.orders| == 1 && FirstSettled(r.books.orders)
      && r.books.orders[0].status == Paid && r.books.orders[0].lines == QuoteOrder(Prices(counties)).lines
  {
    hide Core, Next, Regular, RegularRun, Run;
    steps := ReachPaid(counties);
    StepEdit(Run(START, steps));
    steps := ExtendAt(START, steps, DoEdit(true, 0, 12, 0), 0, 0);
  }

  // Waiting again, after an edit, for an order already paid.
  lemma ReachRelinked() returns (steps: seq<Step>)
    ensures RegularRun(START, steps) && ClockedUpTo(steps, 0)
    ensures var r := Run(START, steps);
      && Plain(r, AwaitingPayment, 6) && r.lastMaterialEditAt.Some? && |r.books.orders| == 1
        && FirstSettled(r.books.orders)
  {
    hide Core, Next, Regular, RegularRun, Run;
    steps := ReachReedited(0);
    StepRelink(Run(START, steps));
    steps := ExtendAt(START, steps, DoModerate(Link(5, 0), 0), 0, 0);
  }

  // Published with an unpaid renewal, until it expires.
  lemma ReachExpired() returns (steps: seq<Step>)
    ensures RegularRun(START, steps) && ClockedUpTo(steps, EXPIRY)
    ensures var r := Run(START, steps);
      Bare(r, Expired, 5) && RenewalOpen(r) && r.content == 0 && FirstSettled(r.books.orders)
  {
    hide Core, Next, Run, RegularRun, Regular, RenewalOpen;
    steps := ReachPaid(0);
    Step4(Run(START, steps));
    steps := ExtendAt(START, steps, DoRenew(true, Some(TERMS), 0), 0, 0);
    Step5(Run(START, steps));
    steps := ExtendAt(START, steps, DoExpire(EXPIRY), 0, EXPIRY);
  }

  // Archived after that.
  lemma ReachArchived() returns (steps: seq<Step>)
    ensures RegularRun(START, steps) && ClockedUpTo(steps, EXPIRY)
    ensures var r := Run(START, steps);
      Bare(r, Archived, 6) && RenewalOpen(r) && r.content == 0 && FirstSettled(r.books.orders)
  {
    hide Core, Next, Run, RegularRun, Regular, RenewalOpen;
    steps := ReachExpired();
    StepOwner(Run(START, steps), Expired, 5, DoOwner(true, Archive, EXPIRY));
    steps := ExtendAt(START, steps, DoOwner(true, Archive, EXPIRY), EXPIRY, EXPIRY);
  }

  // Restored, unchanged.
  lemma ReachRestored() returns (steps: seq<Step>)
    ensures RegularRun(START, steps) && ClockedUpTo(steps, EXPIRY)
    ensures var r := Run(START, steps);
      Bare(r, Draft, 7) && RenewalOpen(r) && r.content == 0 && FirstSettled(r.books.orders)
  {
    hide Core, Next, Run, RegularRun, Regular, RenewalOpen;
    steps := ReachArchived();
    StepOwner(Run(START, steps), Archived, 6, DoOwner(true, RestoreDraft, EXPIRY));
    steps := ExtendAt(START, steps, DoOwner(true, RestoreDraft, EXPIRY), EXPIRY, EXPIRY);
  }

  // Restored, submitted and waiting again, with the renewal still unpaid.
  lemma ReachWaitingWithRenewal() returns (steps: seq<Step>)
    ensures RegularRun(START, steps) && ClockedUpTo(steps, EXPIRY)
    ensures var r := Run(START, steps);
      Bare(r, AwaitingPayment, 10) && RenewalOpen(r) && FirstSettled(r.books.orders)
  {
    hide Core, Next, Run, RegularRun, Regular, RenewalOpen;
    steps := ReachRestored();
    StepOwner(Run(START, steps), Draft, 7, DoSubmit(true, 0));
    steps := ExtendAt(START, steps, DoSubmit(true, 0), EXPIRY, EXPIRY);
    StepLink(Run(START, steps));
    steps := ExtendAt(START, steps, DoModerate(Link(9, 0), EXPIRY), EXPIRY, EXPIRY);
  }

  // Restored and edited: content 1 was never seen by a moderator.
  lemma ReachEdited() returns (steps: seq<Step>)
    ensures RegularRun(START, steps) && ClockedUpTo(steps, EXPIRY)
    ensures var r := Run(START, steps);
      Bare(r, Draft, 7) && RenewalOpen(r) && r.content == 1 && FirstSettled(r.books.orders)
  {
    hide Core, Next, Run, RegularRun, Regular, RenewalOpen;
    steps := ReachRestored();
    StepOwner(Run(START, steps), Draft, 7, DoEdit(true, 0, 12, EXPIRY));
    steps := ExtendAt(START, steps, DoEdit(true, 0, 12, EXPIRY), EXPIRY, EXPIRY);
  }

  // Any status that is not live, with unapproved content and an unpaid renewal.
  lemma ReachUnapproved(q: Status) returns (steps: seq<Step>)
    requires q != Submitted && !Live(q)
    ensures RegularRun(START, steps) && ClockedUpTo(steps, EXPIRY)
    ensures var r := Run(START, steps);
      Core(r) && r.status == q && RenewalOpen(r) && r.content == 1 && r.lastMaterialEditAt.None?
  {
    hide Core, Next, Run, RegularRun, Regular, RenewalOpen;
    steps := ReachEdited();
    if q == Archived {
      StepOwner(Run(START, steps), Draft, 7, DoOwner(true, Archive, EXPIRY));
      steps := ExtendAt(START, steps, DoOwner(true, Archive, EXPIRY), EXPIRY, EXPIRY);
    } else if q != Draft {
      StepOwner(Run(START, steps), Draft, 7, DoSubmit(true, 0));
      steps := ExtendAt(START, steps, DoSubmit(true, 0), EXPIRY, EXPIRY);
      if q != InReview {
        var outcome := if q == ChangesRequested then ChangesRequestedAction
                       else if q == Rejected then RejectedAction else SuspendedAction;
        StepNegative(Run(START, steps), 9, outcome);
        steps := ExtendAt(START, steps, DoModerate(Negative(9, outcome), EXPIRY), EXPIRY, EXPIRY);
      }
    }
  }
}
