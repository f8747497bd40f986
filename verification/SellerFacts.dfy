// What a seller and the schedule can do to a listing, said of the record before
// and after.
module SellerFacts {
  import opened Wrappers
  import opened EventTypes
  import opened Sequences
  import opened Media
  import opened Ledger
  import opened Listings
  import opened Lifecycle

  // ---- sold, archived, restored ----

  lemma SoldAnswers(r: Record, permitted: bool, now: Time)
    ensures var s := OwnerTransition(r, permitted, MarkSold, now);
      var key := OutboxKey(ListingSold, r.revision + 1);
      && (!permitted ==> s == Err(Denied))
      && (permitted && r.status != Published ==> s == Err(WrongStatus))
      && (permitted && r.status == Published && key in r.outbox ==> s == Err(DuplicateKey))
      && (permitted && r.status == Published && key !in r.outbox ==>
            s == Ok(r.(status := Sold, publishedAt := None, soldAt := Some(now),
                       soldPublicUntil := Some(now + 30 * DAY), revision := r.revision + 1, outbox := r.outbox + [key],
                       firstPublishedAt := if r.firstPublishedAt.Some? then r.firstPublishedAt
                                           else if r.publishedAt.Some? then r.publishedAt else Some(now),
                       audit := r.audit + [Action(MarkedSold, Published, Sold)])))
  {
  }

  // An archived listing keeps everything but its status and publication.
  lemma ArchiveAnswers(r: Record, permitted: bool, now: Time)
    ensures var may := r.status in {Draft, ChangesRequested, Rejected, Sold, Expired};
      OwnerTransition(r, permitted, Archive, now) ==
      if !permitted then Err(Denied)
      else if !may then Err(WrongStatus)
      else Ok(r.(status := Archived, publishedAt := None, revision := r.revision + 1,
                 audit := r.audit + [Action(ArchivedAction, r.status, Archived)]))
  {
  }

  lemma RestoreAnswers(r: Record, permitted: bool, now: Time)
    ensures OwnerTransition(r, permitted, RestoreDraft, now) ==
      if !permitted then Err(Denied)
      else if r.status != Archived then Err(WrongStatus)
      else Ok(r.(status := Draft, publishedAt := None, revision := r.revision + 1,
                 audit := r.audit + [Action(RestoredDraft, Archived, Draft)]))
  {
  }

  // ---- edits ----

  // A draft, a listing sent back and a published one can be edited.
  predicate Open(s: Status) {
    s in {Draft, ChangesRequested, Published}
  }

  // New content: a published listing goes back into review, undated, and any
  // other stays where it is.
  ghost predicate Edited(r: Record, s: Record, now: Time) {
    && s.content == r.content + 1
    && s == r.(content := s.content, images := s.images, videos := s.videos, requiredImages := s.requiredImages,
               maximumImages := s.maximumImages, status := s.status, publishedAt := s.publishedAt,
               firstPublishedAt := s.firstPublishedAt,
               lastMaterialEditAt := s.lastMaterialEditAt, revision := s.revision, audit := s.audit)
    && (r.firstPublishedAt.Some? ==> s.firstPublishedAt == r.firstPublishedAt)
    && (if r.status == Published
        then
          && s.status == InReview && s.publishedAt.None? && s.lastMaterialEditAt == Some(now)
          && s.revision == r.revision + 1 && s.audit == r.audit + [Action(MaterialEdit, Published, InReview)]
        else
          && s.status == r.status && s.publishedAt == r.publishedAt && s.lastMaterialEditAt == r.lastMaterialEditAt
          && s.revision == r.revision && s.audit == r.audit && s.firstPublishedAt == r.firstPublishedAt)
  }

  lemma EditAnswers(r: Record, permitted: bool, required: nat, maximum: nat, now: Time)
    ensures var s := Edit(r, permitted, required, maximum, now);
      && (s.Ok? <==> permitted && Open(r.status)) && (s.Err? ==> s == Err(Denied))
      && (s.Ok? ==>
            && Edited(r, s.value, now) && s.value.requiredImages == required && s.value.maximumImages == maximum
            && s.value.images == r.images && s.value.videos == r.videos)
  {
  }

  // A new image is pending and comes after all others, below the limit.
  lemma UploadAnswers(r: Record, permitted: bool, now: Time)
    requires Core(r)
    ensures var ready := |set i | 0 <= i < |r.images| && r.images[i].ready|;
      var s := UploadImage(r, permitted, now);
      && (!permitted || !Open(r.status) ==> s == Err(Denied))
      && (permitted && Open(r.status) && ready >= r.maximumImages ==> s == Err(TooManyImages))
      && (permitted && Open(r.status) && ready < r.maximumImages ==>
            && s.Ok? && Edited(r, s.value, now)
            && s.value == s.value.(images := r.images + [Image(ready, true, PendingReview, "")], videos := r.videos,
                                   requiredImages := r.requiredImages, maximumImages := r.maximumImages))
  {
    assert ReadySet(r.images) == set i | 0 <= i < |r.images| && r.images[i].ready;
    ReadyCount(r.images);
    UploadedFacts(r.images);
  }

  lemma CompleteMeans(images: seq<Image>, ids: seq<nat>)
    ensures CompleteOrder(images, ids) <==>
      Distinct(ids) && forall i :: i in ids <==> 0 <= i < |images| && images[i].ready
  {
    ReadyCount(images);
    DistinctCount(ids);
    assert forall i :: i in ids <==> i in Elements(ids);
    assert forall i :: i in ReadySet(images) <==> 0 <= i < |images| && images[i].ready;
    if Distinct(ids) && forall i :: i in ids <==> 0 <= i < |images| && images[i].ready {
      assert Elements(ids) == ReadySet(images);
    }
  }

  lemma ReorderedPlaces(images: seq<Image>, ids: seq<nat>)
    requires CompleteOrder(images, ids)
    ensures ValidIds(images, ids) && |Reordered(images, ids)| == |images|
    ensures forall k :: 0 <= k < |ids| ==> ids[k] < |images| && Reordered(images, ids)[ids[k]].ordering == k
    ensures forall x :: 0 <= x < |images| && x !in ids ==> Reordered(images, ids)[x] == images[x]
  {
    CompleteOrderIsPermutation(images, ids);
    var mid := Renumber(images, ids, |ids|, |ids|);
    RenumberFacts(images, ids, |ids|, |ids|);
    RenumberFacts(mid, ids, 0, |ids|);
  }

  // A reorder takes every READY image once, and puts the k-th named at place k.
  lemma ReorderAnswers(r: Record, permitted: bool, ids: seq<nat>, now: Time)
    ensures var complete := Distinct(ids) && forall i :: i in ids <==> 0 <= i < |r.images| && r.images[i].ready;
      var s := ReorderImages(r, permitted, ids, now);
      && (!permitted || !Open(r.status) ==> s == Err(Denied))
      && (permitted && Open(r.status) && !complete ==> s == Err(BadDecisions))
      && (permitted && Open(r.status) && complete ==>
            && s.Ok? && Edited(r, s.value, now) && |s.value.images| == |r.images| && s.value.videos == r.videos
            && s.value.requiredImages == r.requiredImages && s.value.maximumImages == r.maximumImages
            && (forall i :: 0 <= i < |r.images| ==>
                  s.value.images[i] == r.images[i].(ordering := s.value.images[i].ordering))
            && (forall k :: 0 <= k < |ids| ==> ids[k] < |r.images| && s.value.images[ids[k]].ordering == k)
            && forall i :: 0 <= i < |r.images| && !r.images[i].ready ==> s.value.images[i] == r.images[i])
  {
    CompleteMeans(r.images, ids);
    hide CompleteOrder, Reordered, Distinct;
    if CompleteOrder(r.images, ids) {
      ReorderedFacts(r.images, ids);
      ReorderedPlaces(r.images, ids);
    }
  }

  // The READY images in order, without one of them.
  lemma OrderWithout(images: seq<Image>, id: nat) returns (ids: seq<nat>)
    requires Compact(images) && id < |images| && images[id].ready
    ensures images[id].ordering < |ReadyInOrder(images)|
    ensures ids == ReadyInOrder(images)[..images[id].ordering] + ReadyInOrder(images)[images[id].ordering + 1..]
    ensures ReadyInOrder(Hidden(images, id)) == ids
  {
    ReadyFacts(images);
    CompactPosition(images, id);
    HiddenOrder(images, id);
    var all, p := ReadyInOrder(images), images[id].ordering;
    ids := all[..p] + all[p + 1..];
    var left := Hidden(images, id);
    hide ReadyInOrder, Compact, Ordered;
    Without(all, p);
    assert forall k :: 0 <= k < |ids| ==> left[ids[k]].ordering == (if k < p then k else k + 1);
    assert Ordered(left, ids);
    SortedUnique(left, ReadyInOrder(left), ids);
  }

  lemma Without(all: seq<nat>, p: nat)
    requires p < |all| && Distinct(all)
    ensures var ids := all[..p] + all[p + 1..];
      && |ids| == |all| - 1 && Distinct(ids)
      && (forall k :: 0 <= k < |ids| ==> ids[k] == all[if k < p then k else k + 1] && ids[k] != all[p])
      && forall x :: x in ids <==> x in all && x != all[p]
  {
    var ids := all[..p] + all[p + 1..];
    forall x | x in all && x != all[p]
      ensures x in ids
    {
      var k :| 0 <= k < |all| && all[k] == x;
      assert ids[if k < p then k else k - 1] == x;
    }
  }

  // Deleting closes the gap: images after it move up by one, those before stay.
  lemma DeletedPlaces(images: seq<Image>, id: nat)
    requires Compact(images) && id < |images| && images[id].ready
    ensures var r := Deleted(images, id);
      && |r| == |images| && r[id] == images[id].(ready := false)
      && forall x :: 0 <= x < |images| && x != id ==>
           r[x] == if images[x].ready && images[x].ordering > images[id].ordering
                   then images[x].(ordering := images[x].ordering - 1) else images[x]
  {
    var ids := OrderWithout(images, id);
    var all, p, left := ReadyInOrder(images), images[id].ordering, Hidden(images, id);
    HiddenOrder(images, id);
    RenumberFacts(left, ids, 0, |ids|);
    CompactPosition(images, id);
    forall x | 0 <= x < |images| && x != id
      ensures Deleted(images, id)[x] ==
        if images[x].ready && images[x].ordering > p then images[x].(ordering := images[x].ordering - 1) else images[x]
    {
      if images[x].ready {
        CompactPosition(images, x);
        var q := images[x].ordering;
        assert q != p;
        assert ids[if q < p then q else q - 1] == x;
      } else {
        assert x !in ids;
      }
    }
    assert id !in ids;
  }

  lemma DeleteAnswers(r: Record, permitted: bool, id: nat, now: Time)
    requires Core(r)
    ensures var ready := id < |r.images| && r.images[id].ready;
      var s := DeleteImage(r, permitted, id, now);
      && (!permitted || !Open(r.status) ==> s == Err(Denied))
      && (permitted && Open(r.status) && !ready ==> s == Err(NoSuchRow))
      && (permitted && Open(r.status) && ready ==>
            && s.Ok? && Edited(r, s.value, now) && s.value.videos == r.videos
            && s.value.requiredImages == r.requiredImages && s.value.maximumImages == r.maximumImages
            && s.value.images == Deleted(r.images, id) && |s.value.images| == |r.images|
            && s.value.images[id] == r.images[id].(ready := false)
            && forall x :: 0 <= x < |r.images| && x != id ==>
                 s.value.images[x] ==
                 if r.images[x].ready && r.images[x].ordering > r.images[id].ordering
                 then r.images[x].(ordering := r.images[x].ordering - 1) else r.images[x])
  {
    if id < |r.images| && r.images[id].ready {
      CoreParts(r);
      DeletedPlaces(r.images, id);
    }
    hide Core, Deleted;
  }

  lemma VideoAnswers(r: Record, permitted: bool, id: nat, now: Time)
    ensures var u := UploadVideo(r, permitted, now);
      && (u.Ok? <==> permitted && Open(r.status)) && (u.Err? ==> u == Err(Denied))
      && (u.Ok? ==>
            && Edited(r, u.value, now) && u.value.images == r.images
            && u.value.videos == r.videos + [Video(true, PendingReview, "")]
            && u.value.requiredImages == r.requiredImages && u.value.maximumImages == r.maximumImages)
    ensures var ready := id < |r.videos| && r.videos[id].ready;
      var d := DeleteVideo(r, permitted, id, now);
      && (!permitted || !Open(r.status) ==> d == Err(Denied))
      && (permitted && Open(r.status) && !ready ==> d == Err(NoSuchRow))
      && (permitted && Open(r.status) && ready ==>
            && d.Ok? && Edited(r, d.value, now) && d.value.images == r.images
            && |d.value.videos| == |r.videos| && d.value.videos[id] == r.videos[id].(ready := false)
            && (forall x :: 0 <= x < |r.videos| && x != id ==> d.value.videos[x] == r.videos[x])
            && d.value.requiredImages == r.requiredImages && d.value.maximumImages == r.maximumImages)
  {
  }

  // ---- expiry and fixtures ----

  // A published listing expires at its expiry, and once.
  lemma ExpireAnswers(r: Record, now: Time)
    ensures var due := r.status == Published && r.expiresAt.Some? && r.expiresAt.value <= now;
      var key := OutboxKey(ListingExpired, r.revision + 1);
      Expire(r, now) ==
      if !due then Ok(r)
      else if key in r.outbox then Err(DuplicateKey)
      else Ok(r.(status := Expired, publishedAt := None, revision := r.revision + 1, outbox := r.outbox + [key],
                 audit := r.audit + [Action(ExpiredAction, Published, Expired)]))
  {
  }

  lemma PublishDemoAnswers(r: Record, permitted: bool, now: Time)
    ensures PublishDemo(r, permitted, now) ==
      if r.status == Published then Ok(r)
      else if r.status != Draft then Err(WrongStatus)
      else if !permitted then Err(Denied)
      else Ok(r.(status := Published, publishedAt := Some(now), revision := r.revision + 1,
                 firstPublishedAt := if r.firstPublishedAt.Some? then r.firstPublishedAt else Some(now),
                 audit := r.audit + [Action(DirectApproval, Draft, Published)]))
  {
  }
}
