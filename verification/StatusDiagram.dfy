// The life of a listing as its history tells it: which action leads from which
// status to which, in every run.
module StatusDiagram {
  import opened Wrappers
  import opened Media
  import opened Ledger
  import opened Listings
  import opened Lifecycle
  import opened LifecycleTheorems
  import opened Publication
  import opened RunTheorems
  import opened PaymentLinks

  // The edges of the status diagram, each under the name of its action.
  predicate OnDiagram(a: Action) {
    match a.kind
    case SubmittedAction =>
      ((a.from == Draft || a.from == ChangesRequested) && a.to == Submitted)
        || (a.from == Submitted && a.to == InReview)
    case ClaimedAction => a.from == InReview && a.to == InReview
    case Approved => (a.from == InReview || a.from == AwaitingPayment) && a.to == Published
    case ApprovedNoPayment => a.from == InReview && a.to == Published
    case ApprovedSendPaymentLink => a.from == InReview && a.to == AwaitingPayment
    case ChangesRequestedAction => a.from == InReview && a.to == ChangesRequested
    case RejectedAction => (a.from == InReview || a.from == Published) && a.to == Rejected
    case SuspendedAction => (a.from == InReview || a.from == Published) && a.to == Suspended
    case PolicyFlagged => a.from == InReview && a.to == InReview
    case DirectApproval => a.from == Draft && a.to == Published
    case MaterialEdit => a.from == Published && a.to == InReview
    case MarkedSold => a.from == Published && a.to == Sold
    case ArchivedAction =>
      (a.from == Draft || a.from == ChangesRequested || a.from == Rejected || a.from == Sold || a.from == Expired)
        && a.to == Archived
    case RestoredDraft => a.from == Archived && a.to == Draft
    case RenewedAction => a.from != Submitted && a.to == Published
    case ExpiredAction => a.from == Published && a.to == Expired
    // Verdicts on single images and videos.
    case _ => (a.from == InReview || a.from == Published) && a.to == a.from
  }

  ghost predicate AllOnDiagram(audit: seq<Action>) {
    forall i :: 0 <= i < |audit| ==> OnDiagram(audit[i])
  }

  // A step that appends one edge of the diagram, or none.
  lemma OneMore(audit: seq<Action>, a: Action)
    requires AllOnDiagram(audit) && OnDiagram(a)
    ensures AllOnDiagram(audit + [a])
  {
  }

  lemma SubmitOnDiagram(r: Record, permitted: bool, flags: nat)
    requires AllOnDiagram(r.audit) && Submit(r, permitted, flags).Ok?
    ensures AllOnDiagram(Submit(r, permitted, flags).value.audit)
  {
  }

  lemma {:induction false} VerdictsOnDiagram(ids: seq<nat>, verdicts: map<nat, Verdict>, s: Status, yes: ActionKind,
    no: ActionKind)
    requires s == InReview || s == Published
    requires (yes == ImageApproved && no == ImageRejected) || (yes == VideoApproved && no == VideoRejected)
    ensures AllOnDiagram(VerdictActions(ids, verdicts, s, yes, no))
  {
    if ids != [] {
      VerdictsOnDiagram(ids[..|ids| - 1], verdicts, s, yes, no);
    }
  }

  // A decision takes an edge of the diagram whatever it does to the media first.
  lemma OutcomeOnDiagram(r: Record, m: Moderation, reviewed: Record, outcome: ActionKind)
    requires AllowedOutcome(r, m).None? && outcome == EffectiveOutcome(reviewed, m.outcome)
    requires IsApproval(outcome) || NeedsReason(outcome)
    ensures (r.status == InReview || r.status == Published)
      && OnDiagram(Action(outcome, r.status, TargetStatus(outcome)))
  {
    hide EnoughApproved;
  }

  lemma ReviewedAudit(r: Record, m: Moderation)
    requires (r.status == InReview || r.status == Published) && AllOnDiagram(r.audit)
    requires ImagesReviewed(r, m.images).Ok? && VideosReviewed(ImagesReviewed(r, m.images).value, m.videos).Ok?
    ensures AllOnDiagram(VideosReviewed(ImagesReviewed(r, m.images).value, m.videos).value.audit)
  {
    hide OnDiagram, VerdictActions, PendingImages, PendingVideos, Explained, ReadyBelow, ReadyVideosBelow,
      ReviewedImage, ReviewedVideo;
    VerdictsOnDiagram(ReadyInOrder(r.images), m.images, r.status, ImageApproved, ImageRejected);
    VerdictsOnDiagram(ReadyVideos(r.videos), m.videos, r.status, VideoApproved, VideoRejected);
  }

  lemma ModerateOnDiagram(r: Record, m: Moderation, now: Time)
    requires Core(r) && AllOnDiagram(r.audit) && Moderate(r, m, now).Ok?
    ensures AllOnDiagram(Moderate(r, m, now).value.audit)
  {
    hide ImagesReviewed, VideosReviewed, Moderate, Core, History, KeysBelow, BooksOk, Balanced, Compact, Concluded,
      EffectiveOutcome, AllOnDiagram, OnDiagram;
    var reviewed, outcome, decided := ModerateStages(r, m, now);
    OutcomeOnDiagram(r, m, reviewed, outcome);
    ReviewedAudit(r, m);
    DecidedKeeps(reviewed, m.actor, outcome, now);
    OneMore(reviewed.audit, Action(outcome, r.status, TargetStatus(outcome)));
    CoreParts(reviewed);
    ConcludedKeeps(decided, m, outcome, now);
  }

  lemma ContentOnDiagram(r: Record, step: Step)
    requires AllOnDiagram(r.audit) && IsContentStep(step) && Apply(r, step).Ok?
    ensures AllOnDiagram(Apply(r, step).value.audit)
  {
    hide Uploaded, Reordered, Deleted, ReadySet, CompleteOrder, Elements, AllOnDiagram;
    if r.status == Published {
      OneMore(r.audit, Action(MaterialEdit, Published, InReview));
    }
  }

  // The history grows by the edge a settled payment takes, if any.
  lemma ProcessOnDiagram(r: Record, i: nat, now: Time)
    requires r.status != Submitted && AllOnDiagram(r.audit) && ProcessEvent(r, i, now).Ok?
    ensures AllOnDiagram(ProcessEvent(r, i, now).value.audit)
  {
    if Publishes(r, i) {
      var o := r.books.orders[r.books.events[i].order];
      hide AllOnDiagram;
      if o.purpose == Renewal {
        OneMore(r.audit, Action(RenewedAction, r.status, Published));
      } else {
        OneMore(r.audit, Action(Approved, r.status, Published));
      }
    } else {
      NotPublishing(r, i, now);
    }
  }

  lemma LocalOnDiagram(r: Record, order: nat, now: Time)
    requires r.status != Submitted && AllOnDiagram(r.audit) && RecordLocalPayment(r, order, now).Ok?
    ensures AllOnDiagram(RecordLocalPayment(r, order, now).value.audit)
  {
    hide ProcessEvent, AllOnDiagram;
    var found := FindEvent(r.books.events, LocalPayment(order));
    if found.Some? {
      ProcessOnDiagram(r, found.value, now);
    } else {
      var o := r.books.orders[order];
      var e := PaymentEvent(LocalPayment(order), PaymentSucceeded, order, o.totalMinor, o.currency, Received, None,
        NoReason);
      ProcessOnDiagram(r.(books := r.books.(events := r.books.events + [e])), |r.books.events|, now);
    }
  }

  lemma BillingOnDiagram(r: Record, step: Step)
    requires Core(r) && AllOnDiagram(r.audit) && IsBillingStep(step) && Apply(r, step).Ok?
    ensures AllOnDiagram(Apply(r, step).value.audit)
  {
    hide ProcessEvent, RecordLocalPayment, RefundRejected, AllOnDiagram;
    match step
    case DoProcess(event, now) => ProcessOnDiagram(r, event, now);
    case DoLocalPayment(order, now) => LocalOnDiagram(r, order, now);
    case DoRefund(now) => RefundRejectedKeeps(r, now);
    case _ =>
  }

  lemma StatusOnDiagram(r: Record, step: Step)
    requires AllOnDiagram(r.audit) && !IsContentStep(step) && !IsBillingStep(step) && !step.DoModerate?
      && Apply(r, step).Ok?
    ensures AllOnDiagram(Apply(r, step).value.audit)
  {
    hide Submit, AllOnDiagram;
    match step
    case DoSubmit(permitted, flags) => SubmitOnDiagram(r, permitted, flags);
    case DoClaim(_, _, _) => OneMore(r.audit, Action(ClaimedAction, r.status, r.status));
    case DoOwner(permitted, action, now) =>
      OneMore(r.audit, match action
                       case MarkSold => Action(MarkedSold, r.status, Sold)
                       case Archive => Action(ArchivedAction, r.status, Archived)
                       case RestoreDraft => Action(RestoredDraft, r.status, Draft));
    case DoExpire(now) =>
      if Due(r, now) {
        OneMore(r.audit, Action(ExpiredAction, r.status, Expired));
      }
    case DoPublishDemo(permitted, now) =>
      if r.status == Draft {
        OneMore(r.audit, Action(DirectApproval, r.status, Published));
      }
  }

  lemma StepOnDiagram(r: Record, step: Step)
    requires Core(r) && AllOnDiagram(r.audit)
    ensures AllOnDiagram(Next(r, step).audit)
  {
    if Apply(r, step).Ok? {
      if IsContentStep(step) {
        ContentOnDiagram(r, step);
      } else if IsBillingStep(step) {
        BillingOnDiagram(r, step);
      } else if step.DoModerate? {
        ModerateOnDiagram(r, step.m, step.now);
      } else {
        StatusOnDiagram(r, step);
      }
    }
  }

  lemma {:induction false} RunOnDiagram(r: Record, steps: seq<Step>)
    requires Core(r) && AllOnDiagram(r.audit)
    ensures AllOnDiagram(Run(r, steps).audit)
  {
    if steps != [] {
      var init, last := steps[..|steps| - 1], steps[|steps| - 1];
      RunOnDiagram(r, init);
      RunKeepsCore(r, init);
      StepOnDiagram(Run(r, init), last);
    }
  }

  // Every row of the history of every run is an edge of the status diagram.
  lemma HistoryFollowsDiagram(wanted: bool, required: nat, maximum: nat, steps: seq<Step>)
    ensures forall a :: a in Run(NewDraft(wanted, required, maximum), steps).audit ==> OnDiagram(a)
  {
    NewDraftCore(wanted, required, maximum);
    RunOnDiagram(NewDraft(wanted, required, maximum), steps);
  }

  // ---- leaving a status ----

  // A waiting listing is published only by the payment of one of its orders.
  lemma OnlyPaymentEndsWaiting(r: Record, step: Step)
    requires Core(r) && r.status == AwaitingPayment && Next(r, step).status != AwaitingPayment
    ensures Next(r, step).status == Published
    ensures exists o :: PaidBy(r.books, Next(r, step).books, o)
  {
    hide Core, Apply, PaidBy;
    if IsBillingStep(step) {
      BillingPays(r, step);
    } else {
      OthersRefused(r, step);
    }
  }

  lemma BillingPays(r: Record, step: Step)
    requires Core(r) && IsBillingStep(step) && Apply(r, step).Ok? && Apply(r, step).value.status != r.status
    ensures Apply(r, step).value.status == Published
    ensures exists o :: PaidBy(r.books, Apply(r, step).value.books, o)
  {
    hide ProcessEvent, RecordLocalPayment, RefundRejected;
    match step
    case DoProcess(event, now) => ProcessPays(r, event, now);
    case DoLocalPayment(order, now) => LocalPays(r, order, now);
    case DoRefund(now) => RefundRejectedKeeps(r, now);
    case _ =>
  }

  lemma ProcessPays(r: Record, i: nat, now: Time)
    requires ProcessEvent(r, i, now).Ok? && ProcessEvent(r, i, now).value.status != r.status
    ensures ProcessEvent(r, i, now).value.status == Published
    ensures exists o :: PaidBy(r.books, ProcessEvent(r, i, now).value.books, o)
  {
    if Publishes(r, i) {
      Publishing(r, i, now);
      assert PaidBy(r.books, ProcessEvent(r, i, now).value.books, r.books.events[i].order);
    } else {
      NotPublishing(r, i, now);
    }
  }

  lemma LocalPays(r: Record, order: nat, now: Time)
    requires RecordLocalPayment(r, order, now).Ok? && RecordLocalPayment(r, order, now).value.status != r.status
    ensures RecordLocalPayment(r, order, now).value.status == Published
    ensures exists o :: PaidBy(r.books, RecordLocalPayment(r, order, now).value.books, o)
  {
    hide ProcessEvent;
    var found := FindEvent(r.books.events, LocalPayment(order));
    if found.Some? {
      ProcessPays(r, found.value, now);
    } else {
      var o := r.books.orders[order];
      var e := PaymentEvent(LocalPayment(order), PaymentSucceeded, order, o.totalMinor, o.currency, Received, None,
        NoReason);
      var received := r.(books := r.books.(events := r.books.events + [e]));
      ProcessPays(received, |r.books.events|, now);
      var paid :| PaidBy(received.books, RecordLocalPayment(r, order, now).value.books, paid);
      assert PaidBy(r.books, RecordLocalPayment(r, order, now).value.books, paid);
    }
  }

  // A suspended listing stays suspended in every regular run: no service but a
  // renewal leaves that status.
  lemma {:induction false} SuspensionIsFinal(r: Record, steps: seq<Step>)
    requires Core(r) && r.status == Suspended && RegularRun(r, steps)
    ensures Run(r, steps).status == Suspended
  {
    if steps != [] {
      var init, last := steps[..|steps| - 1], steps[|steps| - 1];
      SuspensionIsFinal(r, init);
      RunKeepsCore(r, init);
      SuspendedStep(Run(r, init), last);
    }
  }

  lemma SuspendedStep(r: Record, step: Step)
    requires Core(r) && r.status == Suspended && Regular(r, step)
    ensures Next(r, step).status == Suspended
  {
    if Apply(r, step).Ok? {
      if IsBillingStep(step) {
        BillingMoves(r, step);
      } else {
        SuspendedRefuses(r, step);
      }
    }
  }

  lemma SuspendedRefuses(r: Record, step: Step)
    requires r.status == Suspended && !IsBillingStep(step)
    ensures Next(r, step) == r
  {
    hide ImagesReviewed, VideosReviewed, Decided, Concluded;
  }
}
