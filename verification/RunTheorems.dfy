// What a run never takes back: revisions and keys, first publications, orders.
module RunTheorems {
  import opened Wrappers
  import opened Media
  import opened Ledger
  import opened Listings
  import opened Lifecycle
  import opened LifecycleTheorems
  import opened Publication

  // The record after the first i steps.
  function At(r: Record, steps: seq<Step>, i: nat): Record
    requires i <= |steps|
  {
    Run(r, steps[..i])
  }

  lemma AtNext(r: Record, steps: seq<Step>, i: nat)
    requires i < |steps|
    ensures At(r, steps, i + 1) == Next(At(r, steps, i), steps[i])
  {
    assert steps[..i + 1][..i] == steps[..i];
  }

  function Rank(s: OrderStatus): nat {
    match s
    case Pending => 0
    case PaymentFailed => 0
    case RefundPending => 1
    case Paid => 1
    case Refunded => 2
  }

  // Orders keep their snapshot, and only advance from pending over paid to refunded.
  ghost predicate OrdersAdvance(a: seq<Order>, b: seq<Order>) {
    && |a| <= |b|
    && forall i :: 0 <= i < |a| ==>
         && a[i].purpose == b[i].purpose && a[i].currency == b[i].currency
         && a[i].totalMinor == b[i].totalMinor && a[i].lines == b[i].lines
         && Rank(a[i].status) <= Rank(b[i].status)
         && (a[i].paidAt.Some? ==> b[i].paidAt == a[i].paidAt)
  }

  lemma ForwardReflexive(a: Record)
    ensures RowForward(a, a) && OrdersAdvance(a.books.orders, a.books.orders)
  {
  }

  lemma ForwardTwice(a: Record, b: Record, c: Record)
    requires RowForward(a, b) && OrdersAdvance(a.books.orders, b.books.orders)
    requires RowForward(b, c) && BooksForward(b.books, c.books)
    ensures RowForward(a, c) && OrdersAdvance(a.books.orders, c.books.orders)
  {
  }

  lemma {:induction false} RunForward(r: Record, steps: seq<Step>, i: nat, j: nat)
    requires Core(r) && i <= j <= |steps|
    ensures Core(At(r, steps, i)) && Core(At(r, steps, j))
    ensures RowForward(At(r, steps, i), At(r, steps, j))
    ensures OrdersAdvance(At(r, steps, i).books.orders, At(r, steps, j).books.orders)
    decreases j - i
  {
    hide Core, Run, Next, RowForward, OrdersAdvance;
    RunKeepsCore(r, steps[..i]);
    ForwardReflexive(At(r, steps, i));
    if i < j {
      RunForward(r, steps, i, j - 1);
      AtNext(r, steps, j - 1);
      StepForward(At(r, steps, j - 1), steps[j - 1]);
      StepKeepsCore(At(r, steps, j - 1), steps[j - 1]);
      ForwardTwice(At(r, steps, i), At(r, steps, j - 1), At(r, steps, j));
    }
  }

  // The first publication is written once: no later step of a run changes it.
  // The history is append-only, and no order goes back.
  lemma NothingIsTakenBack(wanted: bool, required: nat, maximum: nat, steps: seq<Step>, i: nat, j: nat)
    requires i <= j <= |steps|
    ensures var a, b :=
      At(NewDraft(wanted, required, maximum), steps, i), At(NewDraft(wanted, required, maximum), steps, j);
      && (a.firstPublishedAt.Some? ==> b.firstPublishedAt == a.firstPublishedAt)
      && a.audit <= b.audit && a.outbox <= b.outbox && a.revision <= b.revision
      && (a.status != b.status ==> a.revision < b.revision && |a.audit| < |b.audit|)
      && OrdersAdvance(a.books.orders, b.books.orders)
  {
    RunForward(NewDraft(wanted, required, maximum), steps, i, j);
  }

  // ---- optimistic concurrency ----

  // The revision a moderator saw when claiming or deciding.
  function ObservedRevision(step: Step): Option<int> {
    match step
    case DoClaim(_, _, revision) => Some(revision)
    case DoModerate(m, _) => Some(m.revision)
    case _ => None
  }

  lemma ReviewConsumesRevision(r: Record, step: Step)
    requires Core(r) && ObservedRevision(step).Some? && Apply(r, step).Ok?
    ensures r.revision == ObservedRevision(step).value < Apply(r, step).value.revision
  {
    hide ImagesReviewed, VideosReviewed, Moderate, Core, History, KeysBelow, BooksOk, Balanced, Compact, Concluded,
      EffectiveOutcome;
    match step
    case DoClaim(permitted, actor, revision) =>
    case DoModerate(m, now) =>
      var reviewed, outcome, decided := ModerateStages(r, m, now);
      DecidedKeeps(reviewed, m.actor, outcome, now);
      CoreParts(reviewed);
      ConcludedKeeps(decided, m, outcome, now);
  }

  // Of all the claims and decisions of a run that observed one revision, at
  // most one commits.
  lemma OneReviewPerRevision(wanted: bool, required: nat, maximum: nat, steps: seq<Step>, i: nat, j: nat)
    requires i < j < |steps|
    requires ObservedRevision(steps[i]).Some? && ObservedRevision(steps[i]) == ObservedRevision(steps[j])
    ensures
      var r := NewDraft(wanted, required, maximum);
      !(Apply(At(r, steps, i), steps[i]).Ok? && Apply(At(r, steps, j), steps[j]).Ok?)
  {
    hide Core, Apply, ObservedRevision, Run, OrdersAdvance;
    var r := NewDraft(wanted, required, maximum);
    NewDraftCore(wanted, required, maximum);
    if Apply(At(r, steps, i), steps[i]).Ok? && Apply(At(r, steps, j), steps[j]).Ok? {
      RunForward(r, steps, i + 1, j);
      AtNext(r, steps, i);
      RunKeepsCore(r, steps[..i]);
      RunKeepsCore(r, steps[..j]);
      ReviewConsumesRevision(At(r, steps, i), steps[i]);
      ReviewConsumesRevision(At(r, steps, j), steps[j]);
    }
  }

  // ---- idempotency keys ----

  lemma ConcludedNoDuplicate(r: Record, m: Moderation, outcome: ActionKind, now: Time)
    requires KeysBelow(r, r.revision) && BooksOk(r.books) && (IsApproval(outcome) || NeedsReason(outcome))
    ensures Concluded(r, m, outcome, now) != Err(DuplicateKey)
  {
    if outcome == RejectedAction {
      RefundRejectedKeeps(r, now);
    }
  }

  lemma AllowedFacts(r: Record, m: Moderation)
    ensures AllowedOutcome(r, m) != Some(DuplicateKey)
    ensures AllowedOutcome(r, m).None? ==> IsApproval(m.outcome) || NeedsReason(m.outcome)
  {
  }

  lemma ReviewedFacts(r: Record, m: Moderation)
    ensures ImagesReviewed(r, m.images) != Err(DuplicateKey)
    ensures ImagesReviewed(r, m.images).Ok? ==>
      VideosReviewed(ImagesReviewed(r, m.images).value, m.videos) != Err(DuplicateKey)
  {
  }

  lemma DecidedNoDuplicate(r: Record, actor: nat, outcome: ActionKind, now: Time)
    requires IsApproval(outcome) || NeedsReason(outcome)
    ensures Decided(r, actor, outcome, now) != Err(DuplicateKey)
  {
  }

  lemma CoreBooks(r: Record)
    requires Core(r)
    ensures BooksOk(r.books)
  {
  }

  lemma ModerateNoDuplicate(r: Record, m: Moderation, now: Time)
    requires Core(r)
    ensures Moderate(r, m, now) != Err(DuplicateKey)
  {
    hide Core, AllowedOutcome, ImagesReviewed, VideosReviewed, Decided, Concluded, BooksOk, Balanced, History,
      KeysBelow;
    AllowedFacts(r, m);
    ReviewedFacts(r, m);
    if AllowedOutcome(r, m).None? && ImagesReviewed(r, m.images).Ok?
      && VideosReviewed(ImagesReviewed(r, m.images).value, m.videos).Ok? {
      ImagesReviewedKeeps(r, m.images);
      var withImages := ImagesReviewed(r, m.images).value;
      VideosReviewedKeeps(withImages, m.videos);
      var reviewed := VideosReviewed(withImages, m.videos).value;
      var outcome := EffectiveOutcome(reviewed, m.outcome);
      DecidedNoDuplicate(reviewed, m.actor, outcome, now);
      if Decided(reviewed, m.actor, outcome, now).Ok? {
        DecidedKeeps(reviewed, m.actor, outcome, now);
        CoreBooks(reviewed);
        ConcludedNoDuplicate(Decided(reviewed, m.actor, outcome, now).value, m, outcome, now);
      }
    }
  }

  lemma PaymentNoDuplicate(r: Record, i: nat, now: Time)
    requires Core(r)
    ensures ProcessEvent(r, i, now) != Err(DuplicateKey)
  {
    if i < |r.books.events| && r.books.events[i].order < |r.books.orders| {
      PaidRenewalFacts(r, r.books.orders[r.books.events[i].order], now);
    }
  }

  lemma LocalNoDuplicate(r: Record, order: nat, now: Time)
    requires Core(r)
    ensures RecordLocalPayment(r, order, now) != Err(DuplicateKey)
  {
    if order < |r.books.orders| {
      var o := r.books.orders[order];
      var e := PaymentEvent(LocalPayment(order), PaymentSucceeded, order, o.totalMinor, o.currency, Received, None,
        NoReason);
      var found := FindEvent(r.books.events, LocalPayment(order));
      if found.Some? {
        PaymentNoDuplicate(r, found.value, now);
      } else {
        ReceiveKeeps(r, e);
        PaymentNoDuplicate(r.(books := r.books.(events := r.books.events + [e])), |r.books.events|, now);
      }
    }
  }

  // The keys a run enqueues are pairwise different, so the unique column never
  // refuses an event: only a provider's duplicate is refused, and only when its
  // id is already stored.
  lemma OnlyProvidersDuplicate(r: Record, step: Step)
    requires Core(r)
    ensures Apply(r, step) == Err(DuplicateKey) <==>
      step.DoReceive? && step.order < |r.books.orders| && FindEvent(r.books.events, Provider(step.providerId)).Some?
  {
    hide Money, Compact, History, FindEvent, RefundPaid;
    match step
    case DoModerate(m, now) => ModerateNoDuplicate(r, m, now);
    case DoProcess(event, now) => PaymentNoDuplicate(r, event, now);
    case DoLocalPayment(order, now) => LocalNoDuplicate(r, order, now);
    case DoOwner(permitted, action, now) =>
      if permitted && OwnerMay(action, r.status) {
        OwnerKeeps(r, permitted, action, now);
      }
    case DoExpire(now) => ExpireKeeps(r, now);
    case DoRefund(now) => RefundStepKeeps(r, now);
    case _ =>
  }

  lemma KeysAreDistinct(wanted: bool, required: nat, maximum: nat, steps: seq<Step>, i: nat, j: nat)
    ensures var keys := Run(NewDraft(wanted, required, maximum), steps).outbox;
      i < j < |keys| ==> keys[i] != keys[j]
  {
    RunKeepsCore(NewDraft(wanted, required, maximum), steps);
  }

  // ---- settled payments and the revision ----

  predicate PaidBy(a: Books, b: Books, order: nat) {
    order < |a.orders| && order < |b.orders| && a.orders[order].status == Pending && b.orders[order].status == Paid
  }

  // Processing an event raises the revision by one exactly when it settles the
  // payment of an order, and then of that order alone.
  lemma SettlementRaisesRevision(r: Record, i: nat, now: Time)
    requires Core(r) && ProcessEvent(r, i, now).Ok?
    ensures var s := ProcessEvent(r, i, now).value;
      && s.revision == r.revision + (if Publishes(r, i) then 1 else 0)
      && forall o :: PaidBy(r.books, s.books, o) <==> Publishes(r, i) && o == r.books.events[i].order
  {
    if Publishes(r, i) {
      var o := r.books.orders[r.books.events[i].order];
      Publishing(r, i, now);
      if o.purpose == Renewal {
        PaidRenewalRow(r, o, now);
      } else {
        PaidPublicationRow(r, o, now);
      }
    } else {
      NotPublishing(r, i, now);
      NotPublishingOrders(r, i, now);
    }
  }

  lemma NotPublishingOrders(r: Record, i: nat, now: Time)
    requires ProcessEvent(r, i, now).Ok? && !Publishes(r, i)
    ensures forall o :: !PaidBy(r.books, ProcessEvent(r, i, now).value.books, o)
  {
  }
}
