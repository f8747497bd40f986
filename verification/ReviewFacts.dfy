// What a review stores and decides, said of the record before and after: the
// verdicts on media and their history rows, who may review, and what each
// outcome makes of the listing.
module ReviewFacts {
  import opened Wrappers
  import opened EventTypes
  import opened Sequences
  import opened Media
  import opened Ledger
  import opened Listings
  import opened Lifecycle
  import Text

  // ---- submission and claim ----

  lemma SubmitAnswers(r: Record, permitted: bool, flags: nat)
    ensures var ready := |set i | 0 <= i < |r.images| && r.images[i].ready|;
      Submit(r, permitted, flags) ==
      if !permitted then Err(Denied)
      else if r.status != Draft && r.status != ChangesRequested then Err(WrongStatus)
      else if ready < r.requiredImages then Err(TooFewImages)
      else Ok(r.(status := InReview, revision := r.revision + 2,
                 audit := r.audit + [Action(SubmittedAction, r.status, Submitted),
                                     Action(SubmittedAction, Submitted, InReview)]
                          + seq(flags, _ => Action(PolicyFlagged, InReview, InReview))))
  {
    assert ReadySet(r.images) == set i | 0 <= i < |r.images| && r.images[i].ready;
    assert seq(flags, i => Action(PolicyFlagged, InReview, InReview))
      == seq(flags, _ => Action(PolicyFlagged, InReview, InReview));
    assert r.audit + [Action(SubmittedAction, r.status, Submitted)] + [Action(SubmittedAction, Submitted, InReview)]
      == r.audit + [Action(SubmittedAction, r.status, Submitted), Action(SubmittedAction, Submitted, InReview)];
  }

  // A claim goes to the first moderator who saw the current revision, and stays there.
  lemma ClaimAnswers(r: Record, permitted: bool, actor: nat, observed: int)
    ensures var s := ClaimReview(r, permitted, actor, observed);
      && (s.Ok? <==>
            && permitted && observed == r.revision && r.status == InReview
            && (r.moderator.None? || r.moderator == Some(actor)))
      && (permitted && observed != r.revision ==> s == Err(Stale))
      && (s.Ok? ==>
            s.value == r.(moderator := Some(actor), revision := r.revision + 1,
                          audit := r.audit + [Action(ClaimedAction, InReview, InReview)]))
  {
  }

  // ---- the verdicts on media ----

  // Media with a verdict takes it, with the reason stripped; all else stays.
  ghost predicate ImagesStored(before: seq<Image>, after: seq<Image>, verdicts: map<nat, Verdict>) {
    && |after| == |before|
    && forall i :: 0 <= i < |before| ==>
         && after[i].ordering == before[i].ordering && after[i].ready == before[i].ready
         && (if i in verdicts
             then after[i].review == verdicts[i].review && after[i].reason == Text.Strip(verdicts[i].reason)
             else after[i].review == before[i].review && after[i].reason == before[i].reason)
  }

  ghost predicate VideosStored(before: seq<Video>, after: seq<Video>, verdicts: map<nat, Verdict>) {
    && |after| == |before|
    && forall i :: 0 <= i < |before| ==>
         && after[i].ready == before[i].ready
         && (if i in verdicts
             then after[i].review == verdicts[i].review && after[i].reason == Text.Strip(verdicts[i].reason)
             else after[i].review == before[i].review && after[i].reason == before[i].reason)
  }

  // Each history row says what is stored of its image.
  ghost predicate ImagesTold(rows: seq<Action>, ids: seq<nat>, after: seq<Image>, status: Status) {
    && ValidIds(after, ids) && |rows| == |ids|
    && forall k :: 0 <= k < |ids| ==>
         var kind := if after[ids[k]].review == ApprovedReview then ImageApproved else ImageRejected;
         rows[k] == Action(kind, status, status)
  }

  // One history row for each image with a verdict, in display order.
  ghost predicate ImageRows(rows: seq<Action>, after: seq<Image>, decided: set<nat>, status: Status) {
    exists ids: seq<nat> ::
      && ImagesTold(rows, ids, after, status) && Ordered(after, ids) && Distinct(ids)
      && forall i :: i in ids <==> i in decided
  }

  ghost predicate VideosTold(rows: seq<Action>, ids: seq<nat>, after: seq<Video>, status: Status) {
    && Rising(ids, |after|) && |rows| == |ids|
    && forall k :: 0 <= k < |ids| ==>
         var kind := if after[ids[k]].review == ApprovedReview then VideoApproved else VideoRejected;
         rows[k] == Action(kind, status, status)
  }

  // The same for videos, in the order they were created.
  ghost predicate VideoRows(rows: seq<Action>, after: seq<Video>, decided: set<nat>, status: Status) {
    exists ids: seq<nat> :: VideosTold(rows, ids, after, status) && forall i :: i in ids <==> i in decided
  }

  ghost predicate Rising(ids: seq<nat>, n: nat) {
    && (forall j, k :: 0 <= j < k < |ids| ==> ids[j] < ids[k])
    && (forall k :: 0 <= k < |ids| ==> ids[k] < n)
  }

  // The ids that have a verdict, in their order.
  function WithVerdict(ids: seq<nat>, verdicts: map<nat, Verdict>): seq<nat> {
    if ids == [] then []
    else
      var last := ids[|ids| - 1];
      WithVerdict(ids[..|ids| - 1], verdicts) + if last in verdicts then [last] else []
  }

  lemma {:induction false} RowsOfVerdicts(
    ids: seq<nat>, verdicts: map<nat, Verdict>, status: Status, yes: ActionKind, no: ActionKind)
    ensures var rows, decided := VerdictActions(ids, verdicts, status, yes, no), WithVerdict(ids, verdicts);
      && |rows| == |decided|
      && forall k :: 0 <= k < |decided| ==>
           && decided[k] in verdicts
           && rows[k] == Action(if verdicts[decided[k]].review == ApprovedReview then yes else no, status, status)
  {
    if ids != [] {
      RowsOfVerdicts(ids[..|ids| - 1], verdicts, status, yes, no);
    }
  }

  lemma {:induction false} WithVerdictMembers(ids: seq<nat>, verdicts: map<nat, Verdict>)
    ensures forall i :: i in WithVerdict(ids, verdicts) <==> i in ids && i in verdicts
  {
    if ids != [] {
      WithVerdictMembers(ids[..|ids| - 1], verdicts);
      assert ids == ids[..|ids| - 1] + [ids[|ids| - 1]];
    }
  }

  lemma AppendOrdered(images: seq<Image>, ids: seq<nat>, id: nat)
    requires ValidIds(images, ids) && Ordered(images, ids) && Distinct(ids) && id < |images| && id !in ids
    requires forall i :: i in ids ==> i < |images| && images[i].ordering <= images[id].ordering
    ensures ValidIds(images, ids + [id]) && Ordered(images, ids + [id]) && Distinct(ids + [id])
  {
    assert forall k :: 0 <= k < |ids| ==> ids[k] in ids;
  }

  lemma LastComesLast(images: seq<Image>, ids: seq<nat>)
    requires ids != [] && ValidIds(images, ids) && Ordered(images, ids) && Distinct(ids)
    ensures var init, last := ids[..|ids| - 1], ids[|ids| - 1];
      && ValidIds(images, init) && Ordered(images, init) && Distinct(init) && last !in init
      && forall i :: i in init ==> i < |images| && images[i].ordering <= images[last].ordering
  {
  }

  lemma {:induction false} WithVerdictOrdered(images: seq<Image>, ids: seq<nat>, verdicts: map<nat, Verdict>)
    requires ValidIds(images, ids) && Ordered(images, ids) && Distinct(ids)
    ensures var decided := WithVerdict(ids, verdicts);
      ValidIds(images, decided) && Ordered(images, decided) && Distinct(decided)
  {
    if ids != [] {
      hide Ordered, Distinct;
      var init, last := ids[..|ids| - 1], ids[|ids| - 1];
      LastComesLast(images, ids);
      WithVerdictOrdered(images, init, verdicts);
      WithVerdictMembers(init, verdicts);
      var before := WithVerdict(init, verdicts);
      if last in verdicts {
        AppendOrdered(images, before, last);
      } else {
        assert before + [] == before;
      }
    } else {
      assert Ordered(images, WithVerdict(ids, verdicts));
    }
  }

  lemma {:induction false} ReadyVideosFacts(videos: seq<Video>, n: nat)
    requires n <= |videos|
    ensures Distinct(ReadyVideosBelow(videos, n))
    ensures forall i :: i in ReadyVideosBelow(videos, n) <==> 0 <= i < n && videos[i].ready
  {
    if n > 0 {
      ReadyVideosFacts(videos, n - 1);
    }
  }

  lemma WithVerdictNext(ids: seq<nat>, id: nat, verdicts: map<nat, Verdict>)
    ensures WithVerdict(ids + [id], verdicts) ==
      if id in verdicts then WithVerdict(ids, verdicts) + [id] else WithVerdict(ids, verdicts)
  {
    assert (ids + [id])[..|ids|] == ids;
    assert WithVerdict(ids, verdicts) + [] == WithVerdict(ids, verdicts);
  }

  lemma {:induction false} ReadyVideosRising(videos: seq<Video>, n: nat)
    requires n <= |videos|
    ensures Rising(ReadyVideosBelow(videos, n), n)
  {
    if n > 0 {
      ReadyVideosRising(videos, n - 1);
      RisingNext(ReadyVideosBelow(videos, n - 1), n - 1);
      assert ReadyVideosBelow(videos, n - 1) + [] == ReadyVideosBelow(videos, n - 1);
    }
  }

  lemma RisingInit(ids: seq<nat>, n: nat)
    requires Rising(ids, n) && ids != []
    ensures ids[|ids| - 1] < n && Rising(ids[..|ids| - 1], ids[|ids| - 1])
  {
  }

  lemma RisingHigher(ids: seq<nat>, m: nat, n: nat)
    requires Rising(ids, m) && m <= n
    ensures Rising(ids, n)
  {
  }

  lemma {:induction false} WithVerdictRising(ids: seq<nat>, n: nat, verdicts: map<nat, Verdict>)
    requires Rising(ids, n)
    ensures Rising(WithVerdict(ids, verdicts), n)
  {
    if ids != [] {
      var init, last := ids[..|ids| - 1], ids[|ids| - 1];
      RisingInit(ids, n);
      WithVerdictRising(init, last, verdicts);
      hide Rising;
      var before := WithVerdict(init, verdicts);
      RisingNext(before, last);
      assert before + [] == before;
      RisingHigher(WithVerdict(ids, verdicts), last + 1, n);
    }
  }

  lemma RisingNext(ids: seq<nat>, n: nat)
    requires Rising(ids, n)
    ensures Rising(ids, n + 1) && Rising(ids + [n], n + 1)
  {
  }

  lemma ImageColumns(r: Record, verdicts: map<nat, Verdict>)
    requires ImagesReviewed(r, verdicts).Ok?
    ensures verdicts.Keys == set i | 0 <= i < |r.images| && r.images[i].ready && r.images[i].review == PendingReview
    ensures forall i :: i in verdicts && verdicts[i].review == RejectedReview ==> !Text.Blank(verdicts[i].reason)
    ensures ImagesStored(r.images, ImagesReviewed(r, verdicts).value.images, verdicts)
  {
    hide Text.Strip, Text.Blank, VerdictActions;
  }

  lemma VideoColumns(r: Record, verdicts: map<nat, Verdict>)
    requires VideosReviewed(r, verdicts).Ok?
    ensures verdicts.Keys == set i | 0 <= i < |r.videos| && r.videos[i].ready && r.videos[i].review == PendingReview
    ensures forall i :: i in verdicts && verdicts[i].review == RejectedReview ==> !Text.Blank(verdicts[i].reason)
    ensures VideosStored(r.videos, VideosReviewed(r, verdicts).value.videos, verdicts)
  {
    hide Text.Strip, Text.Blank, VerdictActions;
  }

  lemma HistoryGrows(r: Record, verdicts: map<nat, Verdict>)
    ensures ImagesReviewed(r, verdicts).Ok? ==>
      ImagesReviewed(r, verdicts).value.audit ==
        r.audit + VerdictActions(ReadyInOrder(r.images), verdicts, r.status, ImageApproved, ImageRejected)
    ensures VideosReviewed(r, verdicts).Ok? ==>
      VideosReviewed(r, verdicts).value.audit ==
        r.audit + VerdictActions(ReadyVideos(r.videos), verdicts, r.status, VideoApproved, VideoRejected)
  {
  }

  lemma OrderedAfter(before: seq<Image>, after: seq<Image>, verdicts: map<nat, Verdict>, ids: seq<nat>)
    requires ImagesStored(before, after, verdicts) && ValidIds(before, ids) && Ordered(before, ids)
    ensures ValidIds(after, ids) && Ordered(after, ids)
  {
    hide Text.Strip;
  }

  lemma TellsImages(before: seq<Image>, after: seq<Image>, ids: seq<nat>, verdicts: map<nat, Verdict>, status: Status)
    requires ImagesStored(before, after, verdicts) && ValidIds(before, WithVerdict(ids, verdicts))
    ensures ImagesTold(VerdictActions(ids, verdicts, status, ImageApproved, ImageRejected), WithVerdict(ids, verdicts),
                       after, status)
  {
    RowsOfVerdicts(ids, verdicts, status, ImageApproved, ImageRejected);
    hide Text.Strip, VerdictActions, WithVerdict;
  }

  lemma TellsVideos(before: seq<Video>, after: seq<Video>, ids: seq<nat>, verdicts: map<nat, Verdict>, status: Status)
    requires VideosStored(before, after, verdicts) && Rising(WithVerdict(ids, verdicts), |before|)
    ensures VideosTold(VerdictActions(ids, verdicts, status, VideoApproved, VideoRejected), WithVerdict(ids, verdicts),
                       after, status)
  {
    RowsOfVerdicts(ids, verdicts, status, VideoApproved, VideoRejected);
    hide Text.Strip, VerdictActions, WithVerdict;
  }

  lemma ImageRowsTold(before: seq<Image>, after: seq<Image>, verdicts: map<nat, Verdict>, status: Status)
    requires ImagesStored(before, after, verdicts)
    requires forall i :: i in verdicts ==> i in ReadySet(before)
    ensures ImageRows(VerdictActions(ReadyInOrder(before), verdicts, status, ImageApproved, ImageRejected), after,
                      verdicts.Keys, status)
  {
    hide ReadyInOrder, VerdictActions, WithVerdict, Ordered, Distinct, ImagesTold, ReadySet;
    var ids := ReadyInOrder(before);
    var decided := WithVerdict(ids, verdicts);
    ReadyFacts(before);
    WithVerdictMembers(ids, verdicts);
    WithVerdictOrdered(before, ids, verdicts);
    OrderedAfter(before, after, verdicts, decided);
    TellsImages(before, after, ids, verdicts, status);
  }

  lemma VideoRowsTold(before: seq<Video>, after: seq<Video>, verdicts: map<nat, Verdict>, status: Status)
    requires VideosStored(before, after, verdicts)
    requires forall i :: i in verdicts ==> 0 <= i < |before| && before[i].ready
    ensures VideoRows(VerdictActions(ReadyVideos(before), verdicts, status, VideoApproved, VideoRejected), after,
                      verdicts.Keys, status)
  {
    hide VerdictActions, WithVerdict, Rising, VideosTold, VideosStored, ReadyVideosBelow;
    var ids := ReadyVideos(before);
    ReadyVideosFacts(before, |before|);
    WithVerdictMembers(ids, verdicts);
    ReadyVideosRising(before, |before|);
    WithVerdictRising(ids, |before|, verdicts);
    TellsVideos(before, after, ids, verdicts, status);
  }

  // Every pending image, and no other, has a verdict; it is stored, explained
  // if it rejects, and told in the history.
  lemma ImageVerdictsStored(r: Record, verdicts: map<nat, Verdict>)
    requires ImagesReviewed(r, verdicts).Ok?
    ensures verdicts.Keys == set i | 0 <= i < |r.images| && r.images[i].ready && r.images[i].review == PendingReview
    ensures forall i :: i in verdicts && verdicts[i].review == RejectedReview ==> !Text.Blank(verdicts[i].reason)
    ensures var s := ImagesReviewed(r, verdicts).value;
      && ImagesStored(r.images, s.images, verdicts)
      && r.audit <= s.audit && ImageRows(s.audit[|r.audit|..], s.images, verdicts.Keys, r.status)
  {
    hide ImagesReviewed, ImagesStored, ImageRows, VerdictActions, Text.Blank;
    ImageColumns(r, verdicts);
    assert forall i :: i in verdicts ==> i in verdicts.Keys;
    HistoryGrows(r, verdicts);
    ImageRowsTold(r.images, ImagesReviewed(r, verdicts).value.images, verdicts, r.status);
    var rows := VerdictActions(ReadyInOrder(r.images), verdicts, r.status, ImageApproved, ImageRejected);
    assert (r.audit + rows)[|r.audit|..] == rows;
  }

  lemma VideoVerdictsStored(r: Record, verdicts: map<nat, Verdict>)
    requires VideosReviewed(r, verdicts).Ok?
    ensures verdicts.Keys == set i | 0 <= i < |r.videos| && r.videos[i].ready && r.videos[i].review == PendingReview
    ensures forall i :: i in verdicts && verdicts[i].review == RejectedReview ==> !Text.Blank(verdicts[i].reason)
    ensures var s := VideosReviewed(r, verdicts).value;
      && VideosStored(r.videos, s.videos, verdicts)
      && r.audit <= s.audit && VideoRows(s.audit[|r.audit|..], s.videos, verdicts.Keys, r.status)
  {
    hide VideosReviewed, VideosStored, VideoRows, VerdictActions, Text.Blank;
    VideoColumns(r, verdicts);
    assert forall i :: i in verdicts ==> i in verdicts.Keys;
    HistoryGrows(r, verdicts);
    VideoRowsTold(r.videos, VideosReviewed(r, verdicts).value.videos, verdicts, r.status);
    var rows := VerdictActions(ReadyVideos(r.videos), verdicts, r.status, VideoApproved, VideoRejected);
    assert (r.audit + rows)[|r.audit|..] == rows;
  }

  // Without such verdicts the pass is refused, before anything is said of reasons.
  lemma VerdictsRefused(r: Record, m: Moderation)
    ensures
      var pending := set i | 0 <= i < |r.images| && r.images[i].ready && r.images[i].review == PendingReview;
      var blank := exists i :: i in m.images && m.images[i].review == RejectedReview && Text.Blank(m.images[i].reason);
      && (ImagesReviewed(r, m.images) == Err(BadDecisions) <==> m.images.Keys != pending)
      && (ImagesReviewed(r, m.images) == Err(MissingReason) <==> m.images.Keys == pending && blank)
      && (ImagesReviewed(r, m.images).Ok? <==> m.images.Keys == pending && !blank)
    ensures
      var pending := set i | 0 <= i < |r.videos| && r.videos[i].ready && r.videos[i].review == PendingReview;
      var blank := exists i :: i in m.videos && m.videos[i].review == RejectedReview && Text.Blank(m.videos[i].reason);
      && (VideosReviewed(r, m.videos) == Err(BadDecisions) <==> m.videos.Keys != pending)
      && (VideosReviewed(r, m.videos) == Err(MissingReason) <==> m.videos.Keys == pending && blank)
      && (VideosReviewed(r, m.videos).Ok? <==> m.videos.Keys == pending && !blank)
  {
    assert PendingImages(r.images) ==
      set i | 0 <= i < |r.images| && r.images[i].ready && r.images[i].review == PendingReview;
    assert PendingVideos(r.videos) ==
      set i | 0 <= i < |r.videos| && r.videos[i].ready && r.videos[i].review == PendingReview;
  }

  // ---- the outcome ----

  // The approved images a listing shows.
  function Shown(images: seq<Image>): set<nat> {
    set i | 0 <= i < |images| && images[i].ready && images[i].review == ApprovedReview
  }

  // An approval without the required approved images asks for changes instead.
  function Effective(asked: ActionKind, images: seq<Image>, required: nat): ActionKind {
    if (asked == Approved || asked == ApprovedNoPayment || asked == ApprovedSendPaymentLink)
      && |Shown(images)| < required
    then ChangesRequestedAction
    else asked
  }

  // Every media verdict is stored and told, images first, and then the outcome.
  lemma ModerationStores(r: Record, m: Moderation, now: Time)
    requires Core(r) && Moderate(r, m, now).Ok?
    ensures var s := Moderate(r, m, now).value;
      && ImagesStored(r.images, s.images, m.images) && VideosStored(r.videos, s.videos, m.videos)
      && (forall i :: i in Shown(s.images) <==>
            || (i in Shown(r.images) && i !in m.images)
            || (i in m.images && m.images[i].review == ApprovedReview))
      && exists imageRows, videoRows: seq<Action> ::
           && ImageRows(imageRows, s.images, m.images.Keys, r.status)
           && VideoRows(videoRows, s.videos, m.videos.Keys, r.status)
           && s.audit == r.audit + imageRows + videoRows
                         + [Action(Effective(m.outcome, s.images, r.requiredImages), r.status, s.status)]
  {
    hide Core, Moderate, ImagesReviewed, VideosReviewed, ImageRows, VideoRows, Decided, Concluded, AllowedOutcome,
      ImagesStored, VideosStored, TargetStatus, History, KeysBelow, BooksOk, Balanced, Compact;
    var reviewed, outcome, decided := ModerateStages(r, m, now);
    var withImages := ImagesReviewed(r, m.images).value;
    ImageVerdictsStored(r, m.images);
    ImagesReviewedKeeps(r, m.images);
    VideoVerdictsStored(withImages, m.videos);
    VideosReviewedKeeps(withImages, m.videos);
    DecidedKeeps(reviewed, m.actor, outcome, now);
    CoreParts(reviewed);
    ConcludedKeeps(decided, m, outcome, now);
    var s := Moderate(r, m, now).value;
    var imageRows, videoRows := withImages.audit[|r.audit|..], reviewed.audit[|withImages.audit|..];
    assert reviewed.audit == r.audit + imageRows + videoRows;
    SameOutcome(reviewed, m.outcome);
    ShownAfter(r, m);
    assert ImageRows(imageRows, s.images, m.images.Keys, r.status);
    assert VideoRows(videoRows, s.videos, m.videos.Keys, r.status);
  }

  predicate LastIs(audit: seq<Action>, a: Action) {
    audit != [] && audit[|audit| - 1] == a
  }

  lemma ModerationStored(r: Record, m: Moderation, now: Time)
    requires Core(r) && Moderate(r, m, now).Ok?
    ensures var s := Moderate(r, m, now).value;
      && ImagesStored(r.images, s.images, m.images) && VideosStored(r.videos, s.videos, m.videos)
      && s.requiredImages == r.requiredImages
      && LastIs(s.audit, Action(Effective(m.outcome, s.images, r.requiredImages), r.status, s.status))
  {
    hide Core, Moderate, ImagesStored, VideosStored, ImageRows, VideoRows, Effective, Leads;
    ModerationStores(r, m, now);
    var event := ModerationDecides(r, m, now);
  }

  lemma SameOutcome(r: Record, asked: ActionKind)
    ensures EffectiveOutcome(r, asked) == Effective(asked, r.images, r.requiredImages)
  {
    assert ApprovedImages(r.images) == Shown(r.images);
  }

  lemma ShownAfter(r: Record, m: Moderation)
    requires ImagesReviewed(r, m.images).Ok?
    ensures var s := ImagesReviewed(r, m.images).value;
      forall i :: i in Shown(s.images) <==>
        || (i in Shown(r.images) && i !in m.images)
        || (i in m.images && m.images[i].review == ApprovedReview)
  {
    ImageVerdictsStored(r, m.images);
    hide ImagesReviewed, Text.Strip;
    assert forall i :: i in m.images.Keys ==> i < |r.images| && r.images[i].ready;
  }

  // Who may ask for which outcome of which listing, in the order of the checks.
  lemma ModerationRefusals(r: Record, m: Moderation, now: Time)
    ensures
      var approval := m.outcome == Approved || m.outcome == ApprovedNoPayment || m.outcome == ApprovedSendPaymentLink;
      var negative :=
        m.outcome == ChangesRequestedAction || m.outcome == RejectedAction || m.outcome == SuspendedAction;
      var reviewable :=
        r.status == InReview
        || (r.status == Published && (m.outcome == RejectedAction || m.outcome == SuspendedAction));
      var s := Moderate(r, m, now);
      && (!m.permitted ==> s == Err(Denied))
      && (m.permitted && m.revision != r.revision ==> s == Err(Stale))
      && (m.permitted && m.revision == r.revision && !approval && !negative ==> s == Err(Unsupported))
      && (m.permitted && m.revision == r.revision && (approval || negative) && !reviewable ==> s == Err(WrongStatus))
      && (m.permitted && m.revision == r.revision && negative && reviewable && m.reason != Some(true) ==>
            s == Err(MissingReason))
      && (s.Ok? ==>
            && m.permitted && m.revision == r.revision && (approval || negative) && reviewable
            && (negative ==> m.reason == Some(true)))
  {
    hide ImagesReviewed, VideosReviewed, EffectiveOutcome, Decided, Concluded;
  }

  // The status and the event each outcome leads to.
  ghost predicate Leads(outcome: ActionKind, status: Status, event: Option<EventType>) {
    match outcome
    case Approved => status == Published && event == Some(ListingApproved)
    case ApprovedNoPayment => status == Published && event == Some(ListingApproved)
    case ApprovedSendPaymentLink => status == AwaitingPayment && event == Some(PaymentReady)
    case ChangesRequestedAction => status == ChangesRequested && event == Some(ListingChangesRequested)
    case RejectedAction => status == Rejected && event == Some(ListingRejected)
    case SuspendedAction => status == Suspended && event == None
    case _ => false
  }

  // What a moderation that commits makes of the listing.
  lemma ModerationDecides(r: Record, m: Moderation, now: Time) returns (event: Option<EventType>)
    requires Core(r) && Moderate(r, m, now).Ok?
    ensures var s := Moderate(r, m, now).value;
      var outcome := Effective(m.outcome, s.images, r.requiredImages);
      && Leads(outcome, s.status, event)
      && s.outbox == r.outbox + (if event.Some? then [OutboxKey(event.value, s.revision)] else [])
      && s.revision == r.revision + 1 && s.moderator == Some(m.actor)
      && s.approved == (if s.status == Published || s.status == AwaitingPayment then Some(r.content) else r.approved)
      && (outcome != m.outcome ==> m.reason == Some(true))
      && (outcome == ApprovedSendPaymentLink ==> m.debug)
      && (s.status != Published ==>
            && s.publishedAt.None? && s.firstPublishedAt == r.firstPublishedAt
            && s.lastMaterialEditAt == r.lastMaterialEditAt && s.expiresAt == r.expiresAt)
      && (s.status == Published ==> s.publishedAt == Some(now) && s.lastMaterialEditAt.None?)
      && s.wanted == r.wanted && s.soldAt == r.soldAt && s.soldPublicUntil == r.soldPublicUntil
      && s.requiredImages == r.requiredImages && s.maximumImages == r.maximumImages && s.content == r.content
  {
    hide Core, ImagesReviewed, VideosReviewed, AllowedOutcome, History, KeysBelow, BooksOk, Balanced, Compact,
      Decided, Concluded, EffectiveOutcome, Moderate;
    var reviewed, outcome, decided := ModerateStages(r, m, now);
    DecidedKeeps(reviewed, m.actor, outcome, now);
    ColumnsDecided(reviewed, m.actor, outcome, now);
    CoreParts(reviewed);
    ConcludedKeeps(decided, m, outcome, now);
    event := ConcludedEvent(decided, m, outcome, now);
    SameOutcome(reviewed, m.outcome);
    DowngradeExplained(r, m, now);
  }

  lemma ColumnsDecided(r: Record, actor: nat, outcome: ActionKind, now: Time)
    requires (IsApproval(outcome) || NeedsReason(outcome)) && Decided(r, actor, outcome, now).Ok?
    ensures var s := Decided(r, actor, outcome, now).value;
      && s.moderator == Some(actor) && s.wanted == r.wanted && s.soldAt == r.soldAt
      && s.soldPublicUntil == r.soldPublicUntil && s.maximumImages == r.maximumImages
      && (s.status != Published ==>
            && s.publishedAt.None? && s.firstPublishedAt == r.firstPublishedAt
            && s.lastMaterialEditAt == r.lastMaterialEditAt && s.expiresAt == r.expiresAt)
      && (s.status == Published ==> s.publishedAt == Some(now) && s.lastMaterialEditAt.None?)
  {
    hide LatestPaid;
  }

  lemma ConcludedEvent(r: Record, m: Moderation, outcome: ActionKind, now: Time) returns (event: Option<EventType>)
    requires (IsApproval(outcome) || NeedsReason(outcome)) && Concluded(r, m, outcome, now).Ok?
    requires BooksOk(r.books)
    ensures Leads(outcome, TargetStatus(outcome), event)
    ensures Concluded(r, m, outcome, now).value.outbox ==
      r.outbox + if event.Some? then [OutboxKey(event.value, r.revision)] else []
    ensures outcome == ApprovedSendPaymentLink ==> m.debug
  {
    hide BooksOk, RefundRejected;
    RefundRejectedKeeps(r, now);
    event := OutcomeEvent(outcome);
  }

  lemma DowngradeExplained(r: Record, m: Moderation, now: Time)
    requires Moderate(r, m, now).Ok?
    ensures var reviewed := VideosReviewed(ImagesReviewed(r, m.images).value, m.videos).value;
      EffectiveOutcome(reviewed, m.outcome) != m.outcome ==> m.reason == Some(true)
  {
    hide ImagesReviewed, VideosReviewed, EffectiveOutcome, Decided, Concluded, AllowedOutcome;
  }
}
