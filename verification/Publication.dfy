// What is public was approved: the content and media of published listings,
// the hypotheses on renewals and verdicts this needs, and exactly when it fails.
module Publication {
  import opened Wrappers
  import opened Media
  import opened Ledger
  import opened Listings
  import opened Lifecycle
  import opened LifecycleTheorems

  // The statuses a listing enters only from an approval or from each other.
  predicate Live(s: Status) {
    s == Published || s == AwaitingPayment || s == Expired || s == Sold
  }

  ghost predicate ContentApproved(r: Record) {
    Live(r.status) ==> r.approved == Some(r.content)
  }

  ghost predicate MediaReviewed(r: Record) {
    Live(r.status) ==> PendingImages(r.images) == {} && PendingVideos(r.videos) == {} && EnoughApproved(r)
  }

  // ---- hypotheses on steps ----

  // The step pays an unpaid renewal order.
  ghost predicate SettlesRenewal(r: Record, step: Step) {
    && Apply(r, step).Ok?
    && exists o :: 0 <= o < |r.books.orders| && RenewalPaid(r.books, Apply(r, step).value.books, o)
  }

  predicate RenewalPaid(a: Books, b: Books, o: nat) {
    o < |a.orders| && o < |b.orders| && UnpaidRenewal(a.orders[o]) && b.orders[o].status == Paid
  }

  // No fixture publication, and renewals are settled only in live statuses.
  ghost predicate Regular(r: Record, step: Step) {
    !step.DoPublishDemo? && (SettlesRenewal(r, step) ==> Live(r.status))
  }

  // Moderators approve or reject; a verdict never leaves media pending.
  predicate Decisive(step: Step) {
    step.DoModerate? ==>
      && (forall i :: i in step.m.images ==> step.m.images[i].review != PendingReview)
      && (forall i :: i in step.m.videos ==> step.m.videos[i].review != PendingReview)
  }

  ghost predicate RegularRun(r: Record, steps: seq<Step>) {
    steps == [] || (RegularRun(r, steps[..|steps| - 1]) && Regular(Run(r, steps[..|steps| - 1]), steps[|steps| - 1]))
  }

  predicate DecisiveRun(steps: seq<Step>) {
    forall i :: 0 <= i < |steps| ==> Decisive(steps[i])
  }

  // ---- content ----

  // A step of the payment services: the content columns stay, and the listing
  // becomes live only by a settled payment.
  ghost predicate PaymentMoves(r: Record, s: Record) {
    && s.content == r.content && s.approved == r.approved && s.images == r.images && s.videos == r.videos
    && s.requiredImages == r.requiredImages
    && (s.status != r.status ==>
          && s.status == Published
          && (r.status == AwaitingPayment || exists o :: 0 <= o < |r.books.orders| && RenewalPaid(r.books, s.books, o)))
  }

  lemma NotPublishing(r: Record, i: nat, now: Time)
    requires ProcessEvent(r, i, now).Ok? && !Publishes(r, i)
    ensures var s := ProcessEvent(r, i, now).value; s == r.(books := s.books)
  {
  }

  lemma Publishing(r: Record, i: nat, now: Time)
    requires ProcessEvent(r, i, now).Ok? && Publishes(r, i)
    ensures var s := ProcessEvent(r, i, now).value;
      && s.status == Published && s.content == r.content && s.approved == r.approved
      && s.images == r.images && s.videos == r.videos && s.requiredImages == r.requiredImages
      && s.books.orders ==
         r.books.orders[r.books.events[i].order := PaidOrder(r.books.orders[r.books.events[i].order], now)]
  {
    var o := r.books.orders[r.books.events[i].order];
    if o.purpose == Renewal {
      PaidRenewalRow(r, o, now);
    } else {
      PaidPublicationRow(r, o, now);
    }
  }

  lemma ProcessMoves(r: Record, i: nat, now: Time)
    requires ProcessEvent(r, i, now).Ok?
    ensures PaymentMoves(r, ProcessEvent(r, i, now).value)
  {
    if Publishes(r, i) {
      Publishing(r, i, now);
      var order := r.books.events[i].order;
      if r.books.orders[order].purpose == Renewal {
        assert RenewalPaid(r.books, ProcessEvent(r, i, now).value.books, order);
      }
    } else {
      NotPublishing(r, i, now);
    }
  }

  lemma LocalMoves(r: Record, order: nat, now: Time)
    requires RecordLocalPayment(r, order, now).Ok?
    ensures PaymentMoves(r, RecordLocalPayment(r, order, now).value)
  {
    var found := FindEvent(r.books.events, LocalPayment(order));
    if found.Some? {
      ProcessMoves(r, found.value, now);
    } else {
      var o := r.books.orders[order];
      var e := PaymentEvent(LocalPayment(order), PaymentSucceeded, order, o.totalMinor, o.currency, Received, None,
        NoReason);
      var received := r.(books := r.books.(events := r.books.events + [e]));
      ProcessMoves(received, |r.books.events|, now);
      var s := RecordLocalPayment(r, order, now).value;
      if s.status != r.status && r.status != AwaitingPayment {
        var k :| 0 <= k < |r.books.orders| && RenewalPaid(received.books, s.books, k);
        assert RenewalPaid(r.books, s.books, k);
      }
    }
  }

  // Every billing service moves a listing only so.
  lemma BillingMoves(r: Record, step: Step)
    requires Core(r) && IsBillingStep(step) && Apply(r, step).Ok?
    ensures PaymentMoves(r, Apply(r, step).value)
  {
    hide ProcessEvent, RecordLocalPayment, RefundRejected;
    match step
    case DoProcess(event, now) => ProcessMoves(r, event, now);
    case DoLocalPayment(order, now) => LocalMoves(r, order, now);
    case DoRefund(now) => RefundRejectedKeeps(r, now);
    case _ => OrderingMoves(r, step);
  }

  lemma OrderingMoves(r: Record, step: Step)
    requires step.DoQuote? || step.DoCheckout? || step.DoRenew? || step.DoReceive?
    requires Apply(r, step).Ok?
    ensures PaymentMoves(r, Apply(r, step).value)
  {
  }

  // Content services always leave a listing that is not live.
  lemma ContentLeavesLive(r: Record, step: Step)
    requires IsContentStep(step) && Apply(r, step).Ok?
    ensures !Live(Apply(r, step).value.status)
  {
    hide Uploaded, Reordered, Deleted, ReadySet, CompleteOrder, Elements, Hidden;
  }

  // A live target is an approval, and approval needs enough approved images.
  lemma LiveIsApproval(reviewed: Record, wished: ActionKind, outcome: ActionKind)
    requires outcome == EffectiveOutcome(reviewed, wished) && (IsApproval(outcome) || NeedsReason(outcome))
    requires Live(TargetStatus(outcome))
    ensures IsApproval(outcome) && EnoughApproved(reviewed)
  {
  }

  // What a moderation leaves, live or not.
  lemma ModerationApproves(r: Record, m: Moderation, now: Time)
    requires Core(r) && Moderate(r, m, now).Ok?
    ensures var s := Moderate(r, m, now).value;
      && (Live(s.status) ==> s.approved == Some(s.content) && EnoughApproved(s))
      && s.content == r.content
      && s.images == ImagesReviewed(r, m.images).value.images
      && s.videos == VideosReviewed(ImagesReviewed(r, m.images).value, m.videos).value.videos
  {
    hide ImagesReviewed, VideosReviewed, Moderate, Core, History, KeysBelow, BooksOk, Balanced, Compact, Concluded,
      EffectiveOutcome;
    var reviewed, outcome, decided := ModerateStages(r, m, now);
    DecidedKeeps(reviewed, m.actor, outcome, now);
    CoreParts(reviewed);
    ConcludedKeeps(decided, m, outcome, now);
    VideosKeepImages(ImagesReviewed(r, m.images).value, m.videos);
    if Live(Moderate(r, m, now).value.status) {
      LiveIsApproval(reviewed, m.outcome, outcome);
    }
  }

  lemma VideosKeepImages(r: Record, verdicts: map<nat, Verdict>)
    requires VideosReviewed(r, verdicts).Ok?
    ensures VideosReviewed(r, verdicts).value.images == r.images
  {
  }

  // The remaining services change no content and make nothing live that was not.
  lemma StatusMoves(r: Record, step: Step)
    requires !IsContentStep(step) && !IsBillingStep(step) && !step.DoModerate? && !step.DoPublishDemo?
      && Apply(r, step).Ok?
    ensures var s := Apply(r, step).value;
      && s.content == r.content && s.approved == r.approved && s.images == r.images && s.videos == r.videos
      && s.requiredImages == r.requiredImages && (Live(s.status) ==> Live(r.status))
  {
  }

  lemma StepKeepsContent(r: Record, step: Step)
    requires Core(r) && ContentApproved(r) && Regular(r, step)
    ensures ContentApproved(Next(r, step))
  {
    hide Core, Submit, ClaimReview, Moderate, OwnerTransition, Edit, UploadImage, ReorderImages, DeleteImage,
      UploadVideo, DeleteVideo, Expire, PublishDemo, CreateQuote, CreateCheckout, CreateRenewal, ReceiveEvent,
      ProcessEvent, RecordLocalPayment, RefundRejected;
    if Apply(r, step).Ok? {
      if IsContentStep(step) {
        ContentLeavesLive(r, step);
      } else if IsBillingStep(step) {
        BillingMoves(r, step);
      } else if step.DoModerate? {
        ModerationApproves(r, step.m, step.now);
      } else {
        StatusMoves(r, step);
      }
    }
  }

  lemma {:induction false} ContentRun(r: Record, steps: seq<Step>)
    requires Core(r) && ContentApproved(r) && RegularRun(r, steps)
    ensures Core(Run(r, steps)) && ContentApproved(Run(r, steps))
  {
    if steps != [] {
      ContentRun(r, steps[..|steps| - 1]);
      StepKeepsCore(Run(r, steps[..|steps| - 1]), steps[|steps| - 1]);
      StepKeepsContent(Run(r, steps[..|steps| - 1]), steps[|steps| - 1]);
    }
  }

  // In every run without fixture publication whose renewals are settled only in
  // live statuses, the content of a listing that is PUBLISHED, AWAITING_PAYMENT,
  // EXPIRED or SOLD is the content a moderator last approved.
  lemma PublishedContentIsApproved(wanted: bool, required: nat, maximum: nat, steps: seq<Step>)
    requires RegularRun(NewDraft(wanted, required, maximum), steps)
    ensures var r := Run(NewDraft(wanted, required, maximum), steps);
      r.status == Published || r.status == AwaitingPayment || r.status == Expired || r.status == Sold ==>
        r.approved == Some(r.content)
  {
    ContentRun(NewDraft(wanted, required, maximum), steps);
  }

  // ---- media ----

  lemma NoneLeftPending(r: Record, m: Moderation)
    requires ImagesReviewed(r, m.images).Ok? && VideosReviewed(ImagesReviewed(r, m.images).value, m.videos).Ok?
    requires Decisive(DoModerate(m, 0))
    ensures PendingImages(ImagesReviewed(r, m.images).value.images) == {}
    ensures PendingVideos(VideosReviewed(ImagesReviewed(r, m.images).value, m.videos).value.videos) == {}
  {
    assert forall i :: i in PendingImages(r.images) ==> i in m.images;
    assert forall i :: i in PendingVideos(r.videos) ==> i in m.videos;
  }

  lemma StepKeepsMedia(r: Record, step: Step)
    requires Core(r) && MediaReviewed(r) && ContentApproved(r) && Regular(r, step) && Decisive(step)
    ensures MediaReviewed(Next(r, step))
  {
    if Apply(r, step).Ok? {
      if IsContentStep(step) {
        ContentLeavesLive(r, step);
      } else if IsBillingStep(step) {
        BillingMoves(r, step);
      } else if step.DoModerate? {
        ModerationApproves(r, step.m, step.now);
        var reviewed, outcome, decided := ModerateStages(r, step.m, step.now);
        NoneLeftPending(r, step.m);
      } else {
        StatusMoves(r, step);
      }
    }
  }

  lemma {:induction false} MediaRun(r: Record, steps: seq<Step>)
    requires Core(r) && ContentApproved(r) && MediaReviewed(r) && RegularRun(r, steps) && DecisiveRun(steps)
    ensures Core(Run(r, steps)) && ContentApproved(Run(r, steps)) && MediaReviewed(Run(r, steps))
  {
    ContentRun(r, steps);
    if steps != [] {
      var init, last := steps[..|steps| - 1], steps[|steps| - 1];
      MediaRun(r, init);
      StepKeepsMedia(Run(r, init), last);
    }
  }

  // In such a run with decisive moderators, a live listing shows no image or
  // video still pending and at least the images its category requires.
  lemma PublishedMediaIsReviewed(wanted: bool, required: nat, maximum: nat, steps: seq<Step>)
    requires RegularRun(NewDraft(wanted, required, maximum), steps) && DecisiveRun(steps)
    ensures var r := Run(NewDraft(wanted, required, maximum), steps);
      Live(r.status) ==>
        PendingImages(r.images) == {} && PendingVideos(r.videos) == {} && |ApprovedImages(r.images)| >= r.requiredImages
  {
    MediaRun(NewDraft(wanted, required, maximum), steps);
  }

  // The service stores whatever verdict it is given: media stays pending after
  // a moderation exactly when a verdict says so.
  lemma PendingAfterReview(r: Record, m: Moderation)
    requires ImagesReviewed(r, m.images).Ok? && VideosReviewed(ImagesReviewed(r, m.images).value, m.videos).Ok?
    ensures var images := ImagesReviewed(r, m.images).value.images;
      PendingImages(images) == {} <==> forall i :: i in m.images ==> m.images[i].review != PendingReview
    ensures var videos := VideosReviewed(ImagesReviewed(r, m.images).value, m.videos).value.videos;
      PendingVideos(videos) == {} <==> forall i :: i in m.videos ==> m.videos[i].review != PendingReview
  {
    var images := ImagesReviewed(r, m.images).value.images;
    var videos := VideosReviewed(ImagesReviewed(r, m.images).value, m.videos).value.videos;
    assert forall i :: i in m.images <==> i in PendingImages(r.images);
    assert forall i :: i in m.videos <==> i in PendingVideos(r.videos);
    assert forall i :: i in PendingImages(images) <==> i in m.images && m.images[i].review == PendingReview;
    assert forall i :: i in PendingVideos(videos) <==> i in m.videos && m.videos[i].review == PendingReview;
  }

  lemma PendingAfterModeration(r: Record, m: Moderation, now: Time)
    requires Core(r) && Moderate(r, m, now).Ok?
    ensures var s := Moderate(r, m, now).value;
      && (PendingImages(s.images) == {} <==> forall i :: i in m.images ==> m.images[i].review != PendingReview)
      && (PendingVideos(s.videos) == {} <==> forall i :: i in m.videos ==> m.videos[i].review != PendingReview)
  {
    hide Core, Moderate, ImagesReviewed, VideosReviewed, PendingImages, PendingVideos;
    ModerationApproves(r, m, now);
    var reviewed, outcome, decided := ModerateStages(r, m, now);
    PendingAfterReview(r, m);
  }

  // One more step of a regular run.
  lemma Extend(r: Record, steps: seq<Step>, step: Step) returns (more: seq<Step>)
    requires RegularRun(r, steps) && Regular(Run(r, steps), step)
    ensures Run(r, more) == Next(Run(r, steps), step) && RegularRun(r, more)
  {
    more := steps + [step];
    assert more[..|steps|] == steps;
  }

  const BLURRED := Image(0, true, PendingReview, "")

  lemma UploadOne()
    ensures var r := NewDraft(false, 0, 12);
      Next(r, DoUploadImage(true, 0)) == r.(images := [BLURRED], content := 1)
  {
    assert ReadySet([]) == {};
  }

  // A moderator's PENDING verdict with an approval.
  function Undecided(): Moderation {
    Moderation(true, 1, 2, Approved, None, map[0 := Verdict(PendingReview, "")], map[], true, None)
  }

  lemma ApproveUndecided(r: Record)
    requires r.status == InReview && r.revision == 2 && r.requiredImages == 0
    requires r.images == [BLURRED] && r.videos == [] && r.books == Books([], [])
    requires forall i :: 0 <= i < |r.outbox| ==> r.outbox[i].revision <= 2
    ensures Moderate(r, Undecided(), 0).Ok? && Moderate(r, Undecided(), 0).value.status == Published
  {
    hide VerdictActions;
    assert PendingImages(r.images) == {0} && PendingVideos(r.videos) == {};
    assert r.images[0].ready;
  }

  lemma NoOrdersRegular(r: Record, step: Step)
    requires r.books.orders == [] && !step.DoPublishDemo?
    ensures Regular(r, step)
  {
  }

  lemma SubmitOne(r: Record)
    requires r == NewDraft(false, 0, 12).(images := [BLURRED], content := 1)
    ensures var s := Next(r, DoSubmit(true, 0));
      && s.status == InReview && s.revision == 2 && s.requiredImages == 0
      && s.images == [BLURRED] && s.videos == [] && s.books == Books([], []) && s.outbox == []
  {
    assert ReadySet(r.images) == {0};
  }

  // The draft with one image, submitted.
  lemma BlurredInReview() returns (steps: seq<Step>)
    ensures RegularRun(NewDraft(false, 0, 12), steps)
    ensures var r := Run(NewDraft(false, 0, 12), steps);
      && Core(r) && r.status == InReview && r.revision == 2 && r.requiredImages == 0
      && r.images == [BLURRED] && r.videos == [] && r.books == Books([], []) && r.outbox == []
  {
    hide Core, Regular, RegularRun, Run, Next;
    var start := NewDraft(false, 0, 12);
    NewDraftCore(false, 0, 12);
    EmptyRun(start);
    UploadOne();
    NoOrdersRegular(start, DoUploadImage(true, 0));
    steps := Extend(start, [], DoUploadImage(true, 0));
    SubmitOne(Run(start, steps));
    NoOrdersRegular(Run(start, steps), DoSubmit(true, 0));
    steps := Extend(start, steps, DoSubmit(true, 0));
    RunKeepsCore(start, steps);
  }

  lemma EmptyRun(r: Record)
    ensures RegularRun(r, []) && Run(r, []) == r
  {
  }

  // Without decisive moderators a regular run publishes an image still pending.
  lemma PendingImagePublished() returns (steps: seq<Step>)
    ensures RegularRun(NewDraft(false, 0, 12), steps)
    ensures var r := Run(NewDraft(false, 0, 12), steps);
      r.status == Published && PendingImages(r.images) != {}
  {
    hide Core, Regular, RegularRun, Run, Moderate, PendingImages, PendingVideos;
    var start := NewDraft(false, 0, 12);
    steps := BlurredInReview();
    var r := Run(start, steps);
    ApproveUndecided(r);
    PendingAfterModeration(r, Undecided(), 0);
    assert Undecided().images[0].review == PendingReview;
    NoOrdersRegular(r, DoModerate(Undecided(), 0));
    steps := Extend(start, steps, DoModerate(Undecided(), 0));
  }
}
