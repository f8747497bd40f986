// The stored listing and its services, step by step. Every service is one
// transaction: it takes the row lock, writes column by column, and either
// commits or puts back what it found. The contracts tie each service to its
// function on records, about which the run theorems are proved.
module ListingFile {
  import opened Wrappers
  import opened EventTypes
  import opened Sequences
  import opened Media
  import opened Ledger
  import opened Listings
  import opened Lifecycle
  import opened ReviewFacts
  import opened OrderFacts
  import Text

  // A transaction commits the outcome, or reports the abort and changes nothing.
  ghost predicate Commits(outcome: Outcome, before: Record, after: Record, error: Option<Abort>) {
    match outcome
    case Ok(r) => error.None? && after == r
    case Err(abort) => error == Some(abort) && after == before
  }

  // ---- partial effects of the loops ----

  function ImagesAfter(images: seq<Image>, ids: seq<nat>, verdicts: map<nat, Verdict>): (r: seq<Image>)
    ensures |r| == |images|
  {
    seq(|images|, i requires 0 <= i < |images| =>
      if i in ids && i in verdicts then ReviewedImage(images[i], verdicts[i]) else images[i])
  }

  function VideosAfter(videos: seq<Video>, ids: seq<nat>, verdicts: map<nat, Verdict>): (r: seq<Video>)
    ensures |r| == |videos|
  {
    seq(|videos|, i requires 0 <= i < |videos| =>
      if i in ids && i in verdicts then ReviewedVideo(videos[i], verdicts[i]) else videos[i])
  }

  lemma ImagesAfterNext(images: seq<Image>, ids: seq<nat>, verdicts: map<nat, Verdict>, i: nat)
    requires i < |ids| && ValidIds(images, ids) && Distinct(ids)
    ensures ImagesAfter(images, ids[..i + 1], verdicts) ==
      if ids[i] in verdicts
      then ImagesAfter(images, ids[..i], verdicts)[ids[i] := ReviewedImage(images[ids[i]], verdicts[ids[i]])]
      else ImagesAfter(images, ids[..i], verdicts)
    ensures ImagesAfter(images, ids[..i], verdicts)[ids[i]] == images[ids[i]]
  {
    assert ids[..i + 1] == ids[..i] + [ids[i]];
  }

  lemma VideosAfterNext(videos: seq<Video>, ids: seq<nat>, verdicts: map<nat, Verdict>, i: nat)
    requires i < |ids| && Distinct(ids) && forall k :: 0 <= k < |ids| ==> ids[k] < |videos|
    ensures VideosAfter(videos, ids[..i + 1], verdicts) ==
      if ids[i] in verdicts
      then VideosAfter(videos, ids[..i], verdicts)[ids[i] := ReviewedVideo(videos[ids[i]], verdicts[ids[i]])]
      else VideosAfter(videos, ids[..i], verdicts)
    ensures VideosAfter(videos, ids[..i], verdicts)[ids[i]] == videos[ids[i]]
  {
    assert ids[..i + 1] == ids[..i] + [ids[i]];
  }

  lemma NoneReviewed(r: Record, verdicts: map<nat, Verdict>)
    ensures ImagesAfter(r.images, [], verdicts) == r.images && VideosAfter(r.videos, [], verdicts) == r.videos
    ensures r.audit + VerdictActions([], verdicts, r.status, ImageApproved, ImageRejected) == r.audit
    ensures r.audit + VerdictActions([], verdicts, r.status, VideoApproved, VideoRejected) == r.audit
  {
  }

  lemma VerdictActionsNext(ids: seq<nat>, i: nat, verdicts: map<nat, Verdict>, s: Status, yes: ActionKind,
    no: ActionKind)
    requires i < |ids|
    ensures VerdictActions(ids[..i + 1], verdicts, s, yes, no) ==
      VerdictActions(ids[..i], verdicts, s, yes, no) +
      if ids[i] in verdicts then [Action(if verdicts[ids[i]].review == ApprovedReview then yes else no, s, s)] else []
  {
    assert ids[..i + 1][..i] == ids[..i];
  }

  lemma ImagesAllReviewed(r: Record, verdicts: map<nat, Verdict>)
    requires PendingImages(r.images) == verdicts.Keys
    requires var ids := ReadyInOrder(r.images);
      forall k :: 0 <= k < |ids| && ids[k] in verdicts && verdicts[ids[k]].review == RejectedReview ==>
        !Text.Blank(verdicts[ids[k]].reason)
    ensures var ids := ReadyInOrder(r.images);
      ImagesReviewed(r, verdicts) ==
      Ok(r.(images := ImagesAfter(r.images, ids, verdicts),
            audit := r.audit + VerdictActions(ids, verdicts, r.status, ImageApproved, ImageRejected)))
  {
    ReadyFacts(r.images);
    var ids := ReadyInOrder(r.images);
    assert forall i :: i in verdicts ==> i in PendingImages(r.images) && i in ids;
    assert ImagesReviewed(r, verdicts).value.images == ImagesAfter(r.images, ids, verdicts);
  }

  lemma ImagesMismatched(r: Record, verdicts: map<nat, Verdict>)
    ensures PendingImages(r.images) != verdicts.Keys ==> ImagesReviewed(r, verdicts) == Err(BadDecisions)
  {
  }

  lemma ImagesUnexplained(r: Record, verdicts: map<nat, Verdict>, id: nat)
    requires PendingImages(r.images) == verdicts.Keys
    requires id in verdicts && verdicts[id].review == RejectedReview && Text.Blank(verdicts[id].reason)
    ensures ImagesReviewed(r, verdicts) == Err(MissingReason)
  {
  }

  lemma VideosAllReviewed(r: Record, verdicts: map<nat, Verdict>)
    requires PendingVideos(r.videos) == verdicts.Keys
    requires var ids := ReadyVideos(r.videos);
      forall k :: 0 <= k < |ids| && ids[k] in verdicts && verdicts[ids[k]].review == RejectedReview ==>
        !Text.Blank(verdicts[ids[k]].reason)
    ensures var ids := ReadyVideos(r.videos);
      VideosReviewed(r, verdicts) ==
      Ok(r.(videos := VideosAfter(r.videos, ids, verdicts),
            audit := r.audit + VerdictActions(ids, verdicts, r.status, VideoApproved, VideoRejected)))
  {
    ReadyVideosFacts(r.videos, |r.videos|);
    var ids := ReadyVideos(r.videos);
    assert forall i :: i in verdicts ==> i in PendingVideos(r.videos) && i in ids;
    assert VideosReviewed(r, verdicts).value.videos == VideosAfter(r.videos, ids, verdicts);
  }

  lemma VideosMismatched(r: Record, verdicts: map<nat, Verdict>)
    ensures PendingVideos(r.videos) != verdicts.Keys ==> VideosReviewed(r, verdicts) == Err(BadDecisions)
  {
  }

  lemma VideosUnexplained(r: Record, verdicts: map<nat, Verdict>, id: nat)
    requires PendingVideos(r.videos) == verdicts.Keys
    requires id in verdicts && verdicts[id].review == RejectedReview && Text.Blank(verdicts[id].reason)
    ensures VideosReviewed(r, verdicts) == Err(MissingReason)
  {
  }

  // Every write of a numbering pass respects the unique constraint.
  ghost predicate PassLegal(images: seq<Image>, ids: seq<nat>, base: nat) {
    ValidIds(images, ids) && forall i :: 0 <= i < |ids| ==> Legal(Renumber(images, ids, base, i), ids[i], base + i)
  }

  lemma PassLegalAt(images: seq<Image>, ids: seq<nat>, base: nat, i: nat)
    requires PassLegal(images, ids, base) && i < |ids|
    ensures ValidIds(images, ids)
    ensures Legal(Renumber(images, ids, base, i), ids[i], base + i)
    ensures var before := Renumber(images, ids, base, i);
      Renumber(images, ids, base, i + 1) == before[ids[i] := before[ids[i]].(ordering := base + i)]
  {
    RenumberNext(images, ids, base, i);
  }

  lemma PassLegalStart(images: seq<Image>, ids: seq<nat>, base: nat)
    requires PassLegal(images, ids, base)
    ensures ValidIds(images, ids) && Renumber(images, ids, base, 0) == images
  {
  }

  lemma ReorderPassesLegal(images: seq<Image>, ids: seq<nat>)
    requires Compact(images) && CompleteOrder(images, ids)
    ensures UniqueReady(images) && PassLegal(images, ids, |ids|)
    ensures PassLegal(Renumber(images, ids, |ids|, |ids|), ids, 0)
  {
    CompleteOrderIsPermutation(images, ids);
    CompactOrderings(images);
    forall i | 0 <= i < |ids|
      ensures Legal(Renumber(images, ids, |ids|, i), ids[i], |ids| + i)
      ensures Legal(Renumber(Renumber(images, ids, |ids|, |ids|), ids, 0, i), ids[i], 0 + i)
    {
      ReorderWritesLegal(images, ids, i);
    }
  }

  lemma DeletePassLegal(images: seq<Image>, id: nat)
    requires Compact(images) && id in ReadySet(images)
    ensures var left := Hidden(images, id);
      UniqueReady(left) && PassLegal(left, ReadyInOrder(left), 0)
  {
    CompactOrderings(images);
    var left := Hidden(images, id);
    forall i | 0 <= i < |ReadyInOrder(left)|
      ensures Legal(Renumber(left, ReadyInOrder(left), 0, i), ReadyInOrder(left)[i], 0 + i)
    {
      DeleteWritesLegal(images, id, i);
    }
  }

  // The columns of the listing row.
  datatype Row = Row(
    wanted: bool,
    status: Status,
    publishedAt: Option<Time>,
    firstPublishedAt: Option<Time>,
    soldAt: Option<Time>,
    soldPublicUntil: Option<Time>,
    expiresAt: Option<Time>,
    lastMaterialEditAt: Option<Time>,
    revision: nat,
    moderator: Option<nat>,
    requiredImages: nat,
    maximumImages: nat,
    content: nat,
    approved: Option<nat>)

  function SavedRow(listing: Row, now: Time): Row {
    if listing.status == Published && listing.firstPublishedAt.None?
    then listing.(firstPublishedAt := if listing.publishedAt.Some? then listing.publishedAt else Some(now))
    else listing
  }

  function WithRow(r: Record, listing: Row): Record {
    Record(listing.wanted, listing.status, listing.publishedAt, listing.firstPublishedAt, listing.soldAt,
           listing.soldPublicUntil, listing.expiresAt, listing.lastMaterialEditAt, listing.revision, listing.moderator,
           listing.requiredImages, listing.maximumImages, r.images, r.videos, r.books, r.audit, r.outbox,
           listing.content, listing.approved)
  }

  // A decision appends one action and leaves a published row with its first publication fixed.
  lemma DecidedFacts(r: Record, actor: nat, outcome: ActionKind, now: Time)
    requires IsApproval(outcome) || NeedsReason(outcome)
    ensures Decided(r, actor, outcome, now).Ok? ==>
      var s := Decided(r, actor, outcome, now).value;
      && s.audit == r.audit + [Action(outcome, r.status, s.status)]
      && (s.status == Published ==> s.firstPublishedAt.Some?)
  {
    hide LatestPaid, TargetStatus, IsApproval, NeedsReason;
  }

  lemma DecidedColumns(r: Record, actor: nat, outcome: ActionKind, now: Time)
    requires IsApproval(outcome) || NeedsReason(outcome)
    ensures var to := TargetStatus(outcome);
      var paid := LatestPaid(r.books.orders);
      var live := to == Published;
      Decided(r, actor, outcome, now) ==
      if live && paid.Some? && |r.books.orders[paid.value].lines| != 1 then Err(ManyLines)
      else
        Ok(r.(status := to, moderator := Some(actor), revision := r.revision + 1,
              audit := r.audit + [Action(outcome, r.status, to)],
              approved := if IsApproval(outcome) then Some(r.content) else r.approved,
              publishedAt := if live then Some(now) else None,
              firstPublishedAt := if live && r.firstPublishedAt.None? then Some(now) else r.firstPublishedAt,
              lastMaterialEditAt := if live then None else r.lastMaterialEditAt,
              expiresAt := if live && paid.Some? then Some(now + r.books.orders[paid.value].lines[0].durationDays * DAY)
                           else r.expiresAt))
  {
    hide LatestPaid, TargetStatus, IsApproval, NeedsReason;
  }

  // A publication by a moderator ends with the order nobody paid after, which
  // has one line, or as before if none is paid.
  ghost predicate EndsWithLastPaid(orders: seq<Order>, before: Option<Time>, after: Option<Time>, now: Time) {
    if NonePaid(orders) then after == before
    else
      exists i ::
        && 0 <= i < |orders| && orders[i].status == Paid && |orders[i].lines| == 1
        && PaidLast(orders, i)
        && after == Some(now + orders[i].lines[0].durationDays * DAY)
  }

  function OutcomeKeys(outcome: ActionKind, revision: nat): seq<OutboxKey> {
    if OutcomeEvent(outcome).Some? then [OutboxKey(OutcomeEvent(outcome).value, revision)] else []
  }

  lemma ConcludedLeaves(r: Record, m: Moderation, outcome: ActionKind, now: Time)
    requires BooksOk(r.books) && Concluded(r, m, outcome, now).Ok?
    ensures var s := Concluded(r, m, outcome, now).value;
      && s == r.(books := s.books, outbox := r.outbox + OutcomeKeys(outcome, r.revision))
      && (outcome == RejectedAction ==> NonePaid(s.books.orders))
      && (outcome != RejectedAction && outcome != ApprovedSendPaymentLink ==> s.books == r.books)
  {
    hide BooksOk, NonePaid, RefundRejected, HasOrder;
    if outcome == RejectedAction {
      RefundRejectedKeeps(r, now);
    }
  }

  // The tables that hold one listing. A service works on a copy of the row and
  // saves it.
  class Listing {
    var row: Row
    var images: seq<Image>
    var videos: seq<Video>
    var orders: seq<Order>
    var events: seq<PaymentEvent>
    var audit: seq<Action>
    var outbox: seq<OutboxKey>

    function State(): Record
      reads this
    {
      Record(row.wanted, row.status, row.publishedAt, row.firstPublishedAt, row.soldAt, row.soldPublicUntil,
             row.expiresAt, row.lastMaterialEditAt, row.revision, row.moderator, row.requiredImages, row.maximumImages,
             images, videos, Books(orders, events), audit, outbox, row.content, row.approved)
    }

    ghost predicate Valid()
      reads this
    {
      Core(State())
    }

    constructor (wanted: bool, required: nat, maximum: nat)
      ensures Valid() && State() == NewDraft(wanted, required, maximum)
    {
      row := Row(wanted, Draft, None, None, None, None, None, None, 0, None, required, maximum, 0, None);
      images, videos, orders, events, audit, outbox := [], [], [], [], [], [];
    }

    // ---- the pieces ----

    // What the end of a failed transaction does to every row it locked.
    method RollBack(before: Record)
      modifies this
      ensures State() == before
    {
      row := Row(before.wanted, before.status, before.publishedAt, before.firstPublishedAt, before.soldAt,
                 before.soldPublicUntil, before.expiresAt, before.lastMaterialEditAt, before.revision, before.moderator,
                 before.requiredImages, before.maximumImages, before.content, before.approved);
      images, videos, orders, events := before.images, before.videos, before.books.orders, before.books.events;
      audit, outbox := before.audit, before.outbox;
    }

    method RecordAction(kind: ActionKind, from: Status, to: Status)
      modifies this`audit
      ensures audit == old(audit) + [Action(kind, from, to)]
    {
      audit := audit + [Action(kind, from, to)];
    }

    // Listing.save fixes the first publication.
    method Save(listing: Row, now: Time)
      modifies this`row
      ensures row == SavedRow(listing, now)
      ensures row == listing.(firstPublishedAt := row.firstPublishedAt)
      ensures listing.firstPublishedAt.Some? ==> row.firstPublishedAt == listing.firstPublishedAt
      ensures row.firstPublishedAt != listing.firstPublishedAt ==> row.status == Published
      ensures row.status == Published ==> row.firstPublishedAt.Some?
    {
      row := listing;
      if listing.status == Published && listing.firstPublishedAt.None? {
        row := row.(firstPublishedAt := if listing.publishedAt.Some? then listing.publishedAt else Some(now));
      }
    }

    method Notify(eventType: EventType) returns (error: Option<Abort>)
      modifies this`outbox
      ensures Commits(Enqueued(old(State()), eventType), old(State()), State(), error)
      ensures error.Some? <==> OutboxKey(eventType, row.revision) in old(outbox)
      ensures OutboxKey(eventType, row.revision) in outbox && old(outbox) <= outbox
    {
      var key := OutboxKey(eventType, row.revision);
      if key in outbox {
        return Some(DuplicateKey);
      }
      outbox := outbox + [key];
      error := None;
    }

    method DepublishMaterialEdit(now: Time)
      modifies this`row, this`audit
      ensures State() == Depublished(old(State()), now)
      ensures old(row.status) != Published ==> row == old(row) && audit == old(audit)
      ensures row.status != Published && (row.lastMaterialEditAt == Some(now) || row == old(row))
      ensures row.revision - old(row.revision) == |audit| - |old(audit)|
                 == if old(row.status) == Published then 1 else 0
    {
      var listing := row;
      var previous := listing.status;
      if previous != Published {
        return;
      }
      listing := listing.(status := InReview);
      listing := listing.(publishedAt := None, lastMaterialEditAt := Some(now), revision := listing.revision + 1);
      Save(listing, now);
      RecordAction(MaterialEdit, previous, InReview);
    }

    // ---- submission and review ----

    // One history row per keyword list the text matches.
    method FlagPolicies(flags: nat)
      modifies this`audit
      ensures audit == old(audit) + seq(flags, _ => Action(PolicyFlagged, InReview, InReview))
    {
      for i := 0 to flags
        invariant audit == old(audit) + seq(i, _ => Action(PolicyFlagged, InReview, InReview))
      {
        RecordAction(PolicyFlagged, InReview, InReview);
      }
    }

    method SubmitListing(permitted: bool, flags: nat, now: Time) returns (error: Option<Abort>)
      requires Valid()
      modifies this
      ensures Valid()
      ensures Commits(Submit(old(State()), permitted, flags), old(State()), State(), error)
    {
      hide Core, ReadySet;
      ghost var before := State();
      if !permitted {
        return Some(Denied);
      }
      var listing := row;
      if listing.status != Draft && listing.status != ChangesRequested {
        return Some(WrongStatus);
      }
      if |ReadySet(images)| < listing.requiredImages {
        return Some(TooFewImages);
      }
      var previous := listing.status;
      listing := listing.(status := Submitted, revision := listing.revision + 1);
      Save(listing, now);
      RecordAction(SubmittedAction, previous, Submitted);
      listing := listing.(status := InReview, revision := listing.revision + 1);
      Save(listing, now);
      RecordAction(SubmittedAction, Submitted, InReview);
      FlagPolicies(flags);
      SubmitKeeps(before, permitted, flags);
      error := None;
    }

    method ClaimListing(permitted: bool, actor: nat, observed: int, now: Time) returns (error: Option<Abort>)
      requires Valid()
      modifies this
      ensures Valid()
      ensures Commits(ClaimReview(old(State()), permitted, actor, observed), old(State()), State(), error)
    {
      hide Core;
      ghost var before := State();
      if !permitted {
        return Some(Denied);
      }
      var listing := row;
      if listing.revision != observed {
        return Some(Stale);
      }
      if listing.status != InReview {
        return Some(WrongStatus);
      }
      if listing.moderator.Some? && listing.moderator.value != actor {
        return Some(Denied);
      }
      listing := listing.(moderator := Some(actor), revision := listing.revision + 1);
      Save(listing, now);
      RecordAction(ClaimedAction, listing.status, listing.status);
      ClaimKeeps(before, permitted, actor, observed);
      error := None;
    }

    // Leaves the verdicts of the images before a missing reason in place: the
    // caller's transaction ends there.
    method ApplyImageModeration(verdicts: map<nat, Verdict>) returns (error: Option<Abort>)
      modifies this`images, this`audit
      ensures match ImagesReviewed(old(State()), verdicts)
              case Ok(r) => error.None? && State() == r
              case Err(abort) => error == Some(abort)
      ensures error.None? ==>
        && verdicts.Keys ==
             (set i | 0 <= i < |old(images)| && old(images)[i].ready && old(images)[i].review == PendingReview)
        && ImagesStored(old(images), images, verdicts)
        && old(audit) <= audit && ImageRows(audit[|old(audit)|..], images, verdicts.Keys, row.status)
    {
      hide VerdictActions, ReadyBelow, ReadyVideosBelow, ImagesAfter, Text.Strip, Text.Blank,
        ImagesReviewed, PendingImages, ImageRows, ImagesStored;
      ImagesMismatched(State(), verdicts);
      if PendingImages(images) != verdicts.Keys {
        return Some(BadDecisions);
      }
      ghost var before := State();
      var ids := ReadyInOrder(images);
      ReadyFacts(images);
      NoneReviewed(before, verdicts);
      for i := 0 to |ids|
        invariant images == ImagesAfter(before.images, ids[..i], verdicts)
        invariant audit == before.audit + VerdictActions(ids[..i], verdicts, before.status, ImageApproved,
          ImageRejected)
        invariant forall k :: 0 <= k < i && ids[k] in verdicts && verdicts[ids[k]].review == RejectedReview ==>
          !Text.Blank(verdicts[ids[k]].reason)
      {
        var id := ids[i];
        ImagesAfterNext(before.images, ids, verdicts, i);
        VerdictActionsNext(ids, i, verdicts, before.status, ImageApproved, ImageRejected);
        if id in verdicts {
          var verdict := verdicts[id];
          if verdict.review == RejectedReview && Text.Blank(verdict.reason) {
            ImagesUnexplained(before, verdicts, id);
            return Some(MissingReason);
          }
          images := images[id := images[id].(review := verdict.review, reason := Text.Strip(verdict.reason))];
          RecordAction(
            if verdict.review == ApprovedReview then ImageApproved else ImageRejected, row.status, row.status);
        }
      }
      assert ids[..|ids|] == ids;
      ImagesAllReviewed(before, verdicts);
      ImageVerdictsStored(before, verdicts);
      error := None;
    }

    method ApplyVideoModeration(verdicts: map<nat, Verdict>) returns (error: Option<Abort>)
      modifies this`videos, this`audit
      ensures match VideosReviewed(old(State()), verdicts)
              case Ok(r) => error.None? && State() == r
              case Err(abort) => error == Some(abort)
      ensures error.None? ==>
        && verdicts.Keys ==
             (set i | 0 <= i < |old(videos)| && old(videos)[i].ready && old(videos)[i].review == PendingReview)
        && VideosStored(old(videos), videos, verdicts)
        && old(audit) <= audit && VideoRows(audit[|old(audit)|..], videos, verdicts.Keys, row.status)
    {
      hide VerdictActions, ReadyBelow, ReadyVideosBelow, VideosAfter, Text.Strip, Text.Blank,
        VideosReviewed, PendingVideos, VideoRows, VideosStored;
      VideosMismatched(State(), verdicts);
      if PendingVideos(videos) != verdicts.Keys {
        return Some(BadDecisions);
      }
      ghost var before := State();
      var ids := ReadyVideos(videos);
      ReadyVideosFacts(videos, |videos|);
      NoneReviewed(before, verdicts);
      for i := 0 to |ids|
        invariant videos == VideosAfter(before.videos, ids[..i], verdicts)
        invariant audit == before.audit + VerdictActions(ids[..i], verdicts, before.status, VideoApproved,
          VideoRejected)
        invariant forall k :: 0 <= k < i && ids[k] in verdicts && verdicts[ids[k]].review == RejectedReview ==>
          !Text.Blank(verdicts[ids[k]].reason)
      {
        var id := ids[i];
        VideosAfterNext(before.videos, ids, verdicts, i);
        VerdictActionsNext(ids, i, verdicts, before.status, VideoApproved, VideoRejected);
        if id in verdicts {
          var verdict := verdicts[id];
          if verdict.review == RejectedReview && Text.Blank(verdict.reason) {
            VideosUnexplained(before, verdicts, id);
            return Some(MissingReason);
          }
          videos := videos[id := videos[id].(review := verdict.review, reason := Text.Strip(verdict.reason))];
          RecordAction(
            if verdict.review == ApprovedReview then VideoApproved else VideoRejected, row.status, row.status);
        }
      }
      assert ids[..|ids|] == ids;
      VideosAllReviewed(before, verdicts);
      VideoVerdictsStored(before, verdicts);
      error := None;
    }

    // The dates of a publication by a moderator; the last paid order sets the expiry.
    method MarkPublished(listing: Row, now: Time) returns (marked: Row, error: Option<Abort>)
      ensures var paid := LatestPaid(orders);
        if paid.Some? && |orders[paid.value].lines| != 1 then error == Some(ManyLines)
        else
          && error.None?
          && marked == listing.(publishedAt := Some(now),
                                firstPublishedAt := if listing.firstPublishedAt.None? then Some(now)
                                                    else listing.firstPublishedAt,
                                lastMaterialEditAt := None,
                                expiresAt := if paid.None? then listing.expiresAt
                                             else Some(now + orders[paid.value].lines[0].durationDays * DAY))
      ensures error.None? ==>
        && marked.publishedAt == Some(now) && marked.firstPublishedAt.Some?
        && (listing.firstPublishedAt.Some? ==> marked.firstPublishedAt == listing.firstPublishedAt)
        && marked.status == listing.status && marked.revision == listing.revision
        && EndsWithLastPaid(orders, listing.expiresAt, marked.expiresAt, now)
    {
      LatestPaidFacts(orders);
      hide LatestPaid, PaidLast;
      marked, error := listing.(publishedAt := Some(now)), None;
      if marked.firstPublishedAt.None? {
        marked := marked.(firstPublishedAt := Some(now));
      }
      marked := marked.(lastMaterialEditAt := None);
      var paid := LatestPaid(orders);
      if paid.Some? {
        if |orders[paid.value].lines| != 1 {
          return marked, Some(ManyLines);
        }
        marked := marked.(expiresAt := Some(now + orders[paid.value].lines[0].durationDays * DAY));
      }
    }

    // The row of a reviewed listing with its new status.
    method DecidedRow(actor: nat, outcome: ActionKind, now: Time) returns (listing: Row, error: Option<Abort>)
      requires IsApproval(outcome) || NeedsReason(outcome)
      ensures match Decided(State(), actor, outcome, now)
              case Ok(r) => error.None? && WithRow(State(), listing).(audit := r.audit) == r
              case Err(abort) => error == Some(abort)
    {
      hide LatestPaid, TargetStatus, IsApproval, NeedsReason, Decided;
      DecidedColumns(State(), actor, outcome, now);
      listing, error := row.(status := TargetStatus(outcome), moderator := Some(actor)), None;
      if IsApproval(outcome) {
        listing := listing.(approved := Some(listing.content));
      }
      if listing.status == Published {
        listing, error := MarkPublished(listing, now);
      } else {
        listing := listing.(publishedAt := None);
      }
      listing := listing.(revision := listing.revision + 1);
    }

    method Decide(actor: nat, outcome: ActionKind, now: Time) returns (error: Option<Abort>)
      requires IsApproval(outcome) || NeedsReason(outcome)
      modifies this`row, this`audit
      ensures match Decided(old(State()), actor, outcome, now)
              case Ok(r) => error.None? && State() == r
              case Err(abort) => error == Some(abort)
    {
      var previous := row.status;
      var listing: Row;
      listing, error := DecidedRow(actor, outcome, now);
      DecidedFacts(State(), actor, outcome, now);
      hide Decided, TargetStatus;
      if error.None? {
        Save(listing, now);
        RecordAction(outcome, previous, listing.status);
      }
    }

    method ModerateListing(m: Moderation, now: Time) returns (error: Option<Abort>)
      requires Valid()
      modifies this
      ensures Valid()
      ensures Commits(Moderate(old(State()), m, now), old(State()), State(), error)
      ensures error.None? ==>
        && ImagesStored(old(images), images, m.images) && VideosStored(old(videos), videos, m.videos)
        && LastIs(audit, Action(Effective(m.outcome, images, row.requiredImages), old(row.status), row.status))
    {
      hide ImagesStored, VideosStored, ImageRows, VideoRows, LastIs, Effective, Core, ImagesReviewed, VideosReviewed,
        Decided, CreateQuote, RefundRejected, AllowedOutcome;
      var before := State();
      var refused := AllowedOutcome(before, m);
      if refused.Some? {
        return refused;
      }
      AllowedIsKnown(before, m);
      error := ApplyImageModeration(m.images);
      if error.None? {
        error := ApplyVideoModeration(m.videos);
      }
      if error.None? {
        var outcome := m.outcome;
        if IsApproval(outcome) && |ApprovedImages(images)| < row.requiredImages {
          outcome := ChangesRequestedAction;
          if m.reason != Some(true) {
            error := Some(MissingReason);
          }
        }
        assert outcome == EffectiveOutcome(State(), m.outcome);
        if error.None? {
          error := Decide(m.actor, outcome, now);
        }
        if error.None? {
          error := Conclude(m, outcome, now);
        }
      }
      if error.Some? {
        RollBack(before);
      } else {
        ModerateKeeps(before, m, now);
        ModerationStored(before, m, now);
      }
    }

    // The order of a payment link, the refunds of a rejection, the notification.
    method Conclude(m: Moderation, outcome: ActionKind, now: Time) returns (error: Option<Abort>)
      modifies this
      ensures match Concluded(old(State()), m, outcome, now)
              case Ok(r) => error.None? && State() == r
              case Err(abort) => error == Some(abort)
      ensures old(BooksOk(State().books)) && error.None? ==>
        && row == old(row) && images == old(images) && videos == old(videos) && audit == old(audit)
        && outbox == old(outbox) + OutcomeKeys(outcome, row.revision)
        && (outcome == RejectedAction ==> NonePaid(orders))
        && (outcome != RejectedAction && outcome != ApprovedSendPaymentLink ==> State().books == old(State().books))
    {
      hide CreateQuote, RefundRejected, BooksOk, NonePaid;
      if BooksOk(State().books) && Concluded(State(), m, outcome, now).Ok? {
        ConcludedLeaves(State(), m, outcome, now);
      }
      error := None;
      if outcome == ApprovedSendPaymentLink {
        if !m.debug {
          return Some(LinkDisabled);
        }
        error := CreateGenericQuote(true, m.quote);
      } else if outcome == RejectedAction {
        error := RefundRejectedListing(now);
      }
      if error.None? && OutcomeEvent(outcome).Some? {
        error := Notify(OutcomeEvent(outcome).value);
      }
    }

    // ---- orders ----

    method CreateGenericQuote(permitted: bool, quote: Option<Quote>) returns (error: Option<Abort>)
      modifies this`orders
      ensures Commits(CreateQuote(old(State()), permitted, quote), old(State()), State(), error)
      ensures old(Valid()) ==> Valid()
      ensures var first := exists i :: 0 <= i < |old(orders)| && old(orders)[i].purpose == NewListing;
        && (error.None? <==> permitted && row.status == AwaitingPayment && (first || quote.Some?))
        && (error.Some? || first ==> orders == old(orders))
        && (error.None? && !first ==>
              && |orders| == |old(orders)| + 1 && orders[..|old(orders)|] == old(orders)
              && Quoted(orders[|old(orders)|], quote.value))
    {
      hide Core, Quoted;
      ghost var charged := QuoteAnswers(State(), permitted, quote);
      if Valid() && CreateQuote(State(), permitted, quote).Ok? {
        QuoteStepKeeps(State(), permitted, quote);
      }
      if !permitted {
        return Some(Denied);
      }
      if row.status != AwaitingPayment {
        return Some(NotEligible);
      }
      if HasOrder(orders, NewListing) {
        return None;
      }
      if quote.None? {
        return Some(NotConfigured);
      }
      var q := quote.value;
      var order := Order(NewListing, Pending, "USD", q.primaryMinor + q.additionalMinor * q.counties, None, []);
      order := order.(lines := order.lines + [Line(q.primaryMinor, 1, DaysOr30(q.primaryDays))]);
      if q.counties != 0 {
        order := order.(lines := order.lines + [Line(q.additionalMinor, q.counties, DaysOr30(q.additionalDays))]);
      }
      assert order.lines == QuoteOrder(q).lines;
      orders := orders + [order];
      error := None;
    }

    method CreateCheckoutOrder(permitted: bool, purpose: Purpose, quote: Option<Quote>, terms: Option<Terms>)
      returns (error: Option<Abort>)
      requires Valid()
      modifies this`orders
      ensures Valid()
      ensures Commits(CreateCheckout(old(State()), permitted, purpose, quote, terms), old(State()), State(), error)
      ensures error.None? && orders != old(orders) ==>
        && |orders| == |old(orders)| + 1 && orders[..|old(orders)|] == old(orders)
        && if purpose == NewListing then quote.Some? && Quoted(orders[|old(orders)|], quote.value)
           else terms.Some? && RenewalCharges(orders[|old(orders)|], terms.value)
    {
      hide Core, Quoted;
      ghost var before := State();
      if !permitted {
        return Some(Denied);
      }
      if if purpose == NewListing then row.status != AwaitingPayment
         else row.status != Expired && row.status != Published {
        return Some(NotEligible);
      }
      if purpose == NewListing {
        error := CreateGenericQuote(permitted, quote);
      } else if exists i :: 0 <= i < |orders| && UnpaidRenewal(orders[i]) {
        error := None;
      } else if terms.None? || terms.value.durationDays.None? {
        error := Some(NotConfigured);
      } else if terms.value.durationDays.value == 0 {
        error := Some(ConstraintViolated);
      } else {
        orders := orders + [RenewalOrder(terms.value)];
        error := None;
      }
      if error.None? {
        CheckoutKeeps(before, permitted, purpose, quote, terms);
      }
    }

    method CreateRenewalOrder(permitted: bool, terms: Option<Terms>, now: Time) returns (error: Option<Abort>)
      requires Valid()
      modifies this`orders
      ensures Valid()
      ensures Commits(CreateRenewal(old(State()), permitted, terms, now), old(State()), State(), error)
    {
      hide Core;
      if !permitted {
        return Some(Denied);
      }
      if row.expiresAt.None? || row.expiresAt.value + 7 * DAY < now || row.lastMaterialEditAt.Some? {
        return Some(NotEligible);
      }
      error := CreateCheckoutOrder(permitted, Renewal, None, terms);
    }

    // ---- payments ----

    method ApplyPaidRenewal(o: Order, now: Time) returns (error: Option<Abort>)
      modifies this`row, this`audit, this`outbox
      ensures match PaidRenewal(old(State()), o, now)
              case Ok(r) => error.None? && State() == r
              case Err(abort) => error == Some(abort)
      ensures error.None? ==>
        && old(InGrace(State(), now)) && |o.lines| == 1
        && row.status == Published && row.publishedAt == Some(now) && row.firstPublishedAt.Some?
        && row.expiresAt == Some(now + o.lines[0].durationDays * DAY)
        && row.revision == old(row.revision) + 1
        && audit == old(audit) + [Action(RenewedAction, old(row.status), Published)]
        && outbox == old(outbox) + [OutboxKey(ListingApproved, row.revision)]
        && row.content == old(row.content) && row.approved == old(row.approved)
    {
      var listing := row;
      if listing.expiresAt.None? {
        return Some(NotEligible);
      }
      if |o.lines| != 1 {
        return Some(ManyLines);
      }
      var line := o.lines[0];
      if listing.expiresAt.value + 7 * DAY < now || listing.lastMaterialEditAt.Some? {
        return Some(NotEligible);
      }
      var previous := listing.status;
      listing := listing.(status := Published, publishedAt := Some(now));
      listing := listing.(expiresAt := Some(now + line.durationDays * DAY), revision := listing.revision + 1);
      Save(listing, now);
      RecordAction(RenewedAction, previous, Published);
      error := Notify(ListingApproved);
    }

    method PublishPaid(o: Order, now: Time)
      modifies this`row, this`audit
      ensures State() == PaidPublication(old(State()), o, now)
      ensures row.status == Published && row.publishedAt == Some(now) && row.firstPublishedAt.Some?
      ensures old(row.firstPublishedAt).Some? ==> row.firstPublishedAt == old(row.firstPublishedAt)
      ensures row.wanted ==> row.expiresAt == old(row.expiresAt)
      ensures row.revision == old(row.revision) + 1
      ensures audit == old(audit) + [Action(Approved, old(row.status), Published)]
      ensures row.content == old(row.content) && row.approved == old(row.approved)
    {
      var listing := row;
      var previous := listing.status;
      listing := listing.(status := Published, publishedAt := Some(now));
      if !listing.wanted && o.lines != [] {
        listing := listing.(expiresAt := Some(now + o.lines[0].durationDays * DAY));
      }
      listing := listing.(revision := listing.revision + 1);
      Save(listing, now);
      RecordAction(Approved, previous, Published);
    }

    method MarkPaid(order: nat, now: Time)
      requires order < |orders|
      modifies this`orders
      ensures State() == WithOrder(old(State()), order, PaidOrder(old(orders)[order], now))
      ensures |orders| == |old(orders)| && orders[order].status == Paid && orders[order].paidAt == Some(now)
      ensures orders[order].lines == old(orders)[order].lines
      ensures orders[order].totalMinor == old(orders)[order].totalMinor
      ensures forall i :: 0 <= i < |orders| && i != order ==> orders[i] == old(orders)[i]
    {
      orders := orders[order := orders[order].(status := Paid, paidAt := Some(now))];
    }

    method ProcessPaymentEvent(i: nat, now: Time) returns (error: Option<Abort>)
      modifies this
      ensures Commits(ProcessEvent(old(State()), i, now), old(State()), State(), error)
      ensures old(Valid()) ==> Valid()
    {
      hide PaidRenewal, PaidPublication, Core, InGrace;
      var before := State();
      if Valid() && ProcessEvent(before, i, now).Ok? {
        ProcessKeeps(before, i, now);
      }
      if i >= |events| || events[i].order >= |orders| {
        return Some(NoSuchRow);
      }
      var event := events[i];
      if event.status == Processed || event.status == Ignored {
        return None;
      }
      var order := orders[event.order];
      if event.kind == ChargeRefunded {
        if event.amountMinor != order.totalMinor || event.currency != order.currency {
          event := event.(status := FailedEvent, failureReason := RefundMismatch);
        } else if order.status == Refunded || order.status == Pending || order.status == PaymentFailed {
          event := event.(status := Ignored);
        } else {
          orders := orders[event.order := order.(status := Refunded)];
          event := event.(status := Processed);
        }
      } else if event.kind != PaymentSucceeded {
        event := event.(status := Ignored);
      } else if event.amountMinor != order.totalMinor || event.currency != order.currency {
        event := event.(status := FailedEvent, failureReason := PaymentMismatch);
      } else if order.status != Pending {
        event := event.(status := Ignored);
      } else if order.purpose == Renewal {
        error := ApplyPaidRenewal(order, now);
        if error.Some? {
          RollBack(before);
          return;
        }
        PaidRenewalBooks(before, order, now);
        MarkPaid(event.order, now);
        event := event.(status := Processed);
      } else if row.status != AwaitingPayment {
        event := event.(status := FailedEvent, failureReason := NotAwaiting);
      } else if |ApprovedImages(images)| < row.requiredImages {
        event := event.(status := FailedEvent, failureReason := ImagesMissing);
      } else {
        PublishPaid(order, now);
        PaidPublicationBooks(before, order, now);
        MarkPaid(event.order, now);
        event := event.(status := Processed);
      }
      event := event.(processedAt := Some(now));
      events := events[i := event];
      error := None;
    }

    method ReceivePaymentEvent(id: string, kind: EventKind, order: nat, amountMinor: nat, currency: string)
      returns (error: Option<Abort>)
      requires Valid()
      modifies this`events
      ensures Valid()
      ensures Commits(ReceiveEvent(old(State()), id, kind, order, amountMinor, currency), old(State()), State(), error)
    {
      hide Core;
      if order >= |orders| {
        return Some(NoSuchRow);
      }
      if FindEvent(events, Provider(id)).Some? {
        return Some(DuplicateKey);
      }
      var event := PaymentEvent(Provider(id), kind, order, amountMinor, currency, Received, None, NoReason);
      ReceiveKeeps(State(), event);
      events := events + [event];
      error := None;
    }

    // Get or create a deterministic event, then process it.
    method ProcessLocalEvent(key: EventKey, kind: EventKind, order: nat, now: Time) returns (error: Option<Abort>)
      requires order < |orders|
      modifies this
      ensures Commits(ProcessLocal(old(State()), key, kind, order, now), old(State()), State(), error)
    {
      hide ProcessEvent;
      var before := State();
      var found := FindEvent(events, key);
      if found.None? {
        var o := orders[order];
        found := Some(|events|);
        events := events + [PaymentEvent(key, kind, order, o.totalMinor, o.currency, Received, None, NoReason)];
      }
      error := ProcessPaymentEvent(found.value, now);
      if error.Some? {
        RollBack(before);
      }
    }

    method RecordPayment(order: nat, now: Time) returns (error: Option<Abort>)
      requires Valid()
      modifies this
      ensures Valid()
      ensures Commits(RecordLocalPayment(old(State()), order, now), old(State()), State(), error)
    {
      hide Core, ProcessEvent, ProcessLocal;
      ghost var before := State();
      if order >= |orders| {
        return Some(NoSuchRow);
      }
      error := ProcessLocalEvent(LocalPayment(order), PaymentSucceeded, order, now);
      if error.None? {
        LocalPaymentKeeps(before, order, now);
      }
    }

    // One full refund per paid order.
    method RefundRejectedListing(now: Time) returns (error: Option<Abort>)
      modifies this
      ensures Commits(RefundRejected(old(State()), now), old(State()), State(), error)
      ensures old(Valid()) ==> Valid()
    {
      hide ProcessEvent, ProcessLocal, Core;
      var before := State();
      if Valid() {
        RefundStepKeeps(before, now);
      }
      for i := 0 to |before.books.orders|
        invariant RefundPaid(before, i, now) == Ok(State())
      {
        if i < |orders| && orders[i].status == Paid {
          error := ProcessLocalEvent(LocalRefund(i), ChargeRefunded, i, now);
          if error.Some? {
            RefundStops(before, i + 1, |before.books.orders|, now);
            RollBack(before);
            return;
          }
        }
      }
      error := None;
    }

    // ---- the owner's services ----

    method TransitionOwned(permitted: bool, action: OwnerAction, now: Time) returns (error: Option<Abort>)
      requires Valid()
      modifies this
      ensures Valid()
      ensures Commits(OwnerTransition(old(State()), permitted, action, now), old(State()), State(), error)
    {
      hide Core;
      var before := State();
      if !permitted {
        return Some(Denied);
      }
      var listing := row;
      if !OwnerMay(action, listing.status) {
        return Some(WrongStatus);
      }
      OwnerKeeps(before, permitted, action, now);
      var previous := listing.status;
      listing := listing.(status :=
        match action case MarkSold => Sold case Archive => Archived case RestoreDraft => Draft);
      if action == MarkSold {
        if listing.firstPublishedAt.None? {
          listing := listing.(firstPublishedAt := if listing.publishedAt.Some? then listing.publishedAt else Some(now));
        }
        listing := listing.(soldAt := Some(now), soldPublicUntil := Some(now + 30 * DAY));
      }
      listing := listing.(publishedAt := None, revision := listing.revision + 1);
      Save(listing, now);
      RecordAction(
        match action case MarkSold => MarkedSold case Archive => ArchivedAction case RestoreDraft => RestoredDraft,
                   previous, listing.status);
      error := None;
      if action == MarkSold {
        error := Notify(ListingSold);
      }
    }

    method EditDraft(permitted: bool, required: nat, maximum: nat, now: Time) returns (error: Option<Abort>)
      requires Valid()
      modifies this
      ensures Valid()
      ensures Commits(Edit(old(State()), permitted, required, maximum, now), old(State()), State(), error)
    {
      hide Core;
      ghost var before := State();
      if !permitted || !Editable(row.status) {
        return Some(Denied);
      }
      EditKeeps(before, permitted, required, maximum, now);
      Save(row.(requiredImages := required, maximumImages := maximum, content := row.content + 1), now);
      DepublishMaterialEdit(now);
      error := None;
    }

    method FinalizeImageUpload(permitted: bool, now: Time) returns (error: Option<Abort>)
      requires Valid()
      modifies this
      ensures Valid()
      ensures Commits(UploadImage(old(State()), permitted, now), old(State()), State(), error)
    {
      hide Core, ReadyBelow;
      ghost var before := State();
      if !permitted || !Editable(row.status) {
        return Some(Denied);
      }
      if |ReadySet(images)| >= row.maximumImages {
        return Some(TooManyImages);
      }
      UploadImageKeeps(before, permitted, now);
      var ids := ReadyInOrder(images);
      var next := if ids == [] then 0 else images[ids[|ids| - 1]].ordering + 1;
      images := images + [Image(next, true, PendingReview, "")];
      row := row.(content := row.content + 1);
      DepublishMaterialEdit(now);
      error := None;
    }

    // One UPDATE of an ordering, which the unique constraint must allow.
    method WriteOrdering(id: nat, ordering: nat)
      requires id < |images| && Legal(images, id, ordering)
      modifies this`images
      ensures images == old(images)[id := old(images)[id].(ordering := ordering)]
      ensures old(UniqueReady(images)) ==> UniqueReady(images)
    {
      images := images[id := images[id].(ordering := ordering)];
    }

    // One pass of row updates: ids[0] takes base, ids[1] takes base + 1, ...
    method NumberRows(ids: seq<nat>, base: nat)
      requires UniqueReady(images) && PassLegal(images, ids, base)
      modifies this`images
      ensures images == Renumber(old(images), ids, base, |ids|) && UniqueReady(images)
    {
      ghost var start := images;
      hide Legal, UniqueReady, Renumber, PassLegal, ValidIds;
      PassLegalStart(start, ids, base);
      var i := 0;
      while i < |ids|
        invariant i <= |ids| && images == Renumber(start, ids, base, i) && UniqueReady(images)
      {
        PassLegalAt(start, ids, base, i);
        WriteOrdering(ids[i], base + i);
        i := i + 1;
      }
    }

    method ReorderListingImages(permitted: bool, ids: seq<nat>, now: Time) returns (error: Option<Abort>)
      requires Valid()
      modifies this
      ensures Valid()
      ensures Commits(ReorderImages(old(State()), permitted, ids, now), old(State()), State(), error)
    {
      hide Core, PassLegal, UniqueReady, Renumber, Compact, Elements, ReadySet, ReadyBelow;
      ghost var before := State();
      if !permitted || !Editable(row.status) {
        return Some(Denied);
      }
      var rows := ReadyInOrder(images);
      if Elements(ids) != ReadySet(images) || |ids| != |rows| {
        return Some(BadDecisions);
      }
      ReorderKeeps(before, permitted, ids, now);
      CoreCompact(before);
      ReorderPassesLegal(before.images, ids);
      NumberRows(ids, |rows|);
      NumberRows(ids, 0);
      row := row.(content := row.content + 1);
      DepublishMaterialEdit(now);
      error := None;
    }

    method DeleteListingImage(permitted: bool, id: nat, now: Time) returns (error: Option<Abort>)
      requires Valid()
      modifies this
      ensures Valid()
      ensures Commits(DeleteImage(old(State()), permitted, id, now), old(State()), State(), error)
    {
      hide Core, PassLegal, UniqueReady, Renumber, ReadyBelow, Compact;
      ghost var before := State();
      if !permitted || !Editable(row.status) {
        return Some(Denied);
      }
      if id !in ReadySet(images) {
        return Some(NoSuchRow);
      }
      DeleteImageKeeps(before, permitted, id, now);
      CoreCompact(before);
      DeletePassLegal(before.images, id);
      images := images[id := images[id].(ready := false)];
      var rows := ReadyInOrder(images);
      NumberRows(rows, 0);
      row := row.(content := row.content + 1);
      DepublishMaterialEdit(now);
      error := None;
    }

    method UploadListingVideo(permitted: bool, now: Time) returns (error: Option<Abort>)
      requires Valid()
      modifies this
      ensures Valid()
      ensures Commits(UploadVideo(old(State()), permitted, now), old(State()), State(), error)
    {
      hide Core;
      ghost var before := State();
      if !permitted || !Editable(row.status) {
        return Some(Denied);
      }
      videos := videos + [Video(true, PendingReview, "")];
      row := row.(content := row.content + 1);
      DepublishMaterialEdit(now);
      UploadVideoKeeps(before, permitted, now);
      error := None;
    }

    method DeleteListingVideo(permitted: bool, id: nat, now: Time) returns (error: Option<Abort>)
      requires Valid()
      modifies this
      ensures Valid()
      ensures Commits(DeleteVideo(old(State()), permitted, id, now), old(State()), State(), error)
    {
      hide Core;
      ghost var before := State();
      if !permitted || !Editable(row.status) {
        return Some(Denied);
      }
      if id >= |videos| || !videos[id].ready {
        return Some(NoSuchRow);
      }
      videos := videos[id := videos[id].(ready := false)];
      row := row.(content := row.content + 1);
      DepublishMaterialEdit(now);
      DeleteVideoKeeps(before, permitted, id, now);
      error := None;
    }

    // ---- scheduled and fixture services ----

    method ExpireLocked(now: Time) returns (expired: bool)
      requires Valid()
      modifies this
      ensures Valid()
      ensures expired == Due(old(State()), now)
      ensures Expire(old(State()), now) == Ok(State())
    {
      hide Core;
      ghost var before := State();
      var listing := row;
      if listing.status != Published || listing.expiresAt.None? || listing.expiresAt.value > now {
        return false;
      }
      ExpireKeeps(before, now);
      var previous := listing.status;
      listing := listing.(status := Expired, publishedAt := None, revision := listing.revision + 1);
      Save(listing, now);
      RecordAction(ExpiredAction, previous, Expired);
      var error := Notify(ListingExpired);
      expired := true;
    }

    method PublishDemoListing(permitted: bool, now: Time) returns (error: Option<Abort>)
      requires Valid()
      modifies this
      ensures Valid()
      ensures Commits(PublishDemo(old(State()), permitted, now), old(State()), State(), error)
    {
      hide Core;
      ghost var before := State();
      var listing := row;
      if listing.status == Published {
        return None;
      }
      if listing.status != Draft {
        return Some(WrongStatus);
      }
      if !permitted {
        return Some(Denied);
      }
      PublishDemoKeeps(before, permitted, now);
      listing := listing.(status := Published, publishedAt := Some(now), revision := listing.revision + 1);
      if listing.firstPublishedAt.None? {
        listing := listing.(firstPublishedAt := Some(now));
      }
      Save(listing, now);
      RecordAction(DirectApproval, Draft, Published);
      error := None;
    }
  }

  lemma CoreCompact(r: Record)
    requires Core(r)
    ensures Compact(r.images)
  {
  }

  lemma AllowedIsKnown(r: Record, m: Moderation)
    requires AllowedOutcome(r, m).None?
    ensures IsApproval(m.outcome) || NeedsReason(m.outcome)
  {
  }

  lemma PaidRenewalBooks(r: Record, o: Order, now: Time)
    requires PaidRenewal(r, o, now).Ok?
    ensures PaidRenewal(r, o, now).value.books == r.books
  {
  }

  lemma PaidPublicationBooks(r: Record, o: Order, now: Time)
    ensures PaidPublication(r, o, now).books == r.books
  {
  }

  // A refund that aborts ends the whole loop.
  lemma {:induction false} RefundStops(r: Record, i: nat, n: nat, now: Time)
    requires i <= n && RefundPaid(r, i, now).Err?
    ensures RefundPaid(r, n, now) == RefundPaid(r, i, now)
    decreases n
  {
    if i < n {
      RefundStops(r, i, n - 1, now);
    }
  }
}
