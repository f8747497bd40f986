// All listings together: what buyers see, and the worker that expires listings.
module Marketplace {
  import opened Wrappers
  import opened EventTypes
  import opened Sequences
  import opened Media
  import opened Ledger
  import opened Listings
  import opened Lifecycle
  import opened LifecycleTheorems
  import opened Publication

  type ListingId = nat
  type Table = map<ListingId, Record>

  // ---- visibility at a time ----

  // The status and date part of the buyers' visibility rule.
  predicate Current(r: Record, now: Time) {
    r.status == Published && (r.expiresAt.None? || r.expiresAt.value > now)
  }

  // A seller's feed also shows what was sold recently.
  predicate InFeed(r: Record, now: Time) {
    Current(r, now) || (r.status == Sold && r.soldAt.Some? && r.soldPublicUntil.Some? && r.soldPublicUntil.value > now)
  }

  // Listings whose vertical, category, state and county are all in use are in active.
  function PublicListings(t: Table, active: set<ListingId>, now: Time): set<ListingId> {
    set id | id in t && id in active && Current(t[id], now)
  }

  function FeedListings(t: Table, shown: set<ListingId>, now: Time): set<ListingId> {
    set id | id in t && id in shown && InFeed(t[id], now)
  }

  function DueListings(t: Table, now: Time): set<ListingId> {
    set id | id in t && Due(t[id], now)
  }

  // Buyers see what is published and not yet at its expiry, in use as a whole.
  lemma VisibleMeans(t: Table, active: set<ListingId>, now: Time, id: ListingId)
    ensures id in PublicListings(t, active, now) <==>
      && id in t && id in active && t[id].status == Published
      && (t[id].expiresAt.Some? ==> now < t[id].expiresAt.value)
    ensures id in FeedListings(t, active, now) <==>
      || id in PublicListings(t, active, now)
      || (id in t && id in active && t[id].status == Sold && t[id].soldAt.Some?
          && t[id].soldPublicUntil.Some? && now < t[id].soldPublicUntil.value)
  {
  }

  // ---- one run of the expiry worker ----

  // Every due listing has an expiry.
  function ExpiryOf(r: Record): Time {
    if r.expiresAt.Some? then r.expiresAt.value else 0
  }

  predicate ExpiresNoLater(t: Table, a: ListingId, b: ListingId)
    requires a in t && b in t
  {
    ExpiryOf(t[a]) <= ExpiryOf(t[b])
  }

  // The first batchSize due rows that nobody else has locked, by expiry.
  ghost predicate IsDueBatch(t: Table, batchSize: nat, now: Time, busy: set<ListingId>, ids: seq<ListingId>) {
    var due := DueListings(t, now) - busy;
    && Distinct(ids)
    && (forall id :: id in ids ==> id in due)
    && |ids| == (if batchSize < |due| then batchSize else |due|)
    && (forall i, j :: 0 <= i < j < |ids| && ids[i] in t && ids[j] in t ==> ExpiresNoLater(t, ids[i], ids[j]))
    && (forall id, other :: id in ids && other in due && other !in ids && id in t && other in t ==>
      ExpiresNoLater(t, id, other))
  }

  ghost predicate DueAt(t: Table, id: ListingId, now: Time) {
    id in t && t[id].status == Published && t[id].expiresAt.Some? && t[id].expiresAt.value <= now
  }

  // No more than the batch holds, the published rows whose expiry has come, the
  // earliest expiry first; one left out expires no earlier and the batch is full.
  ghost predicate SoonestDue(t: Table, batchSize: nat, now: Time, busy: set<ListingId>, ids: seq<ListingId>) {
    && Distinct(ids) && |ids| <= batchSize
    && (forall id :: id in ids ==> DueAt(t, id, now) && id !in busy)
    && (forall i, j :: 0 <= i < j < |ids| && DueAt(t, ids[i], now) && DueAt(t, ids[j], now) ==>
          t[ids[i]].expiresAt.value <= t[ids[j]].expiresAt.value)
    && (forall other :: DueAt(t, other, now) && other !in busy && other !in ids ==>
          && |ids| == batchSize
          && forall id :: id in ids && DueAt(t, id, now) ==> t[id].expiresAt.value <= t[other].expiresAt.value)
  }

  lemma DueMeans(t: Table, now: Time)
    ensures forall id :: id in DueListings(t, now) <==> DueAt(t, id, now)
    ensures forall id :: DueAt(t, id, now) ==> id in t && t[id].expiresAt.Some?
  {
  }

  lemma SoonerMeans(t: Table, now: Time)
    ensures forall a, b :: DueAt(t, a, now) && DueAt(t, b, now) ==>
      (ExpiresNoLater(t, a, b) <==> t[a].expiresAt.value <= t[b].expiresAt.value)
  {
  }

  lemma BatchIsSoonest(t: Table, batchSize: nat, now: Time, busy: set<ListingId>, ids: seq<ListingId>)
    requires IsDueBatch(t, batchSize, now, busy, ids)
    ensures SoonestDue(t, batchSize, now, busy, ids)
  {
    var due := DueListings(t, now) - busy;
    DueMeans(t, now);
    SoonerMeans(t, now);
    hide DueListings, DueAt, ExpiresNoLater, Distinct;
    forall other | other in due && other !in ids
      ensures |ids| == batchSize
    {
      LeftOut(ids, due, other);
    }
    forall i, j | 0 <= i < j < |ids| && DueAt(t, ids[i], now) && DueAt(t, ids[j], now)
      ensures t[ids[i]].expiresAt.value <= t[ids[j]].expiresAt.value
    {
      assert ExpiresNoLater(t, ids[i], ids[j]);
    }
    forall other, id | other in due && other !in ids && id in ids && DueAt(t, id, now)
      ensures t[id].expiresAt.value <= t[other].expiresAt.value
    {
      assert ExpiresNoLater(t, id, other);
    }
  }

  lemma LeftOut(ids: seq<ListingId>, due: set<ListingId>, other: ListingId)
    requires Distinct(ids) && (forall id :: id in ids ==> id in due) && other in due && other !in ids
    ensures |ids| < |due|
  {
    DistinctCount(ids);
    assert Elements(ids) <= due - {other};
    ProperlyFewer(Elements(ids), due, other);
  }

  lemma ProperlyFewer(a: set<ListingId>, b: set<ListingId>, x: ListingId)
    requires a <= b - {x} && x in b
    ensures |a| < |b|
  {
    assert b == a + (b - a) && x in b - a;
  }

  function ExpiredRow(r: Record, now: Time): Record {
    match Expire(r, now)
    case Ok(s) => s
    case Err(_) => r
  }

  // The rows of ids expired, all others as they were.
  ghost predicate ExpiredRows(t: Table, u: Table, ids: seq<ListingId>, now: Time) {
    && u.Keys == t.Keys
    && forall id :: id in t ==> u[id] == if id in ids then ExpiredRow(t[id], now) else t[id]
  }

  ghost predicate AllCore(t: Table) {
    forall id :: id in t ==> Core(t[id])
  }

  lemma ExpiredRowFacts(r: Record, now: Time)
    requires Core(r)
    ensures var s := ExpiredRow(r, now);
      && Expire(r, now) == Ok(s) && Core(s) && !Due(s, now)
      && (!Due(r, now) ==> s == r)
      && (forall later :: later >= now ==>
        Current(s, later) == Current(r, later) && InFeed(s, later) == InFeed(r, later))
  {
    ExpireKeeps(r, now);
  }

  // Expiring rows is invisible: at the time of the run and ever after, the
  // listings buyers see and the sellers' feeds are what they would have been.
  lemma ExpiryIsInvisible(t: Table, u: Table, ids: seq<ListingId>, now: Time, shown: set<ListingId>, later: Time)
    requires AllCore(t) && ExpiredRows(t, u, ids, now) && later >= now
    ensures PublicListings(u, shown, later) == PublicListings(t, shown, later)
    ensures FeedListings(u, shown, later) == FeedListings(t, shown, later)
  {
    forall id | id in t
      ensures Current(u[id], later) == Current(t[id], later) && InFeed(u[id], later) == InFeed(t[id], later)
    {
      ExpiredRowFacts(t[id], now);
    }
  }

  lemma DueAreListed(t: Table, now: Time)
    ensures forall id :: id in DueListings(t, now) ==> id in t
  {
  }

  // Each run removes its batch, and nothing else, from the due listings.
  lemma ExpiryDrains(t: Table, u: Table, ids: seq<ListingId>, now: Time)
    requires AllCore(t) && ExpiredRows(t, u, ids, now) && Distinct(ids)
    requires forall id :: id in ids ==> id in DueListings(t, now)
    ensures AllCore(u)
    ensures DueListings(u, now) == DueListings(t, now) - Elements(ids)
    ensures |DueListings(u, now)| == |DueListings(t, now)| - |ids|
  {
    hide Core, Expire, ExpiredRow, Due;
    forall id | id in t
      ensures Core(u[id]) && (id in ids ==> !Due(u[id], now)) && (id !in ids ==> u[id] == t[id])
    {
      ExpiredRowFacts(t[id], now);
    }
    DistinctCount(ids);
    assert DueListings(u, now) == DueListings(t, now) - Elements(ids);
    assert Elements(ids) <= DueListings(t, now);
  }

  // The rows picked so far come no later than the rest, in order.
  ghost predicate Picked(t: Table, due: set<ListingId>, ids: seq<ListingId>, rest: set<ListingId>) {
    && due <= t.Keys && Distinct(ids) && |ids| + |rest| == |due|
    && (forall id :: id in due <==> id in ids || id in rest)
    && (forall id :: id in ids ==> id !in rest)
    && (forall i, j :: 0 <= i < j < |ids| && ids[i] in t && ids[j] in t ==> ExpiresNoLater(t, ids[i], ids[j]))
    && (forall id, other :: id in ids && other in rest && id in t && other in t ==> ExpiresNoLater(t, id, other))
  }

  lemma NothingPicked(t: Table, due: set<ListingId>)
    requires due <= t.Keys
    ensures Picked(t, due, [], due)
  {
  }

  lemma PickNext(t: Table, due: set<ListingId>, ids: seq<ListingId>, rest: set<ListingId>, next: ListingId)
    requires Picked(t, due, ids, rest) && next in rest && rest <= t.Keys
    requires forall id :: id in rest ==> ExpiresNoLater(t, next, id)
    ensures Picked(t, due, ids + [next], rest - {next})
  {
    hide ExpiresNoLater;
  }

  lemma PickedBatch(t: Table, batchSize: nat, now: Time, busy: set<ListingId>, ids: seq<ListingId>,
    rest: set<ListingId>)
    requires Picked(t, DueListings(t, now) - busy, ids, rest)
    requires |ids| <= batchSize && (|ids| < batchSize ==> rest == {})
    ensures IsDueBatch(t, batchSize, now, busy, ids)
  {
    hide ExpiresNoLater, DueListings;
  }

  class Market {
    var listings: Table

    ghost predicate Valid()
      reads this
    {
      AllCore(listings)
    }

    constructor ()
      ensures Valid() && listings == map[]
    {
      listings := map[];
    }

    method Soonest(ids: set<ListingId>) returns (first: ListingId)
      requires ids != {} && ids <= listings.Keys
      ensures first in ids
      ensures forall id :: id in ids ==> ExpiresNoLater(listings, first, id)
    {
      first :| first in ids;
      var rest := ids - {first};
      while rest != {}
        invariant first in ids && rest <= ids
        invariant forall id :: id in ids ==> id in rest || ExpiresNoLater(listings, first, id)
        decreases rest
      {
        var id :| id in rest;
        if ExpiryOf(listings[id]) < ExpiryOf(listings[first]) {
          first := id;
        }
        rest := rest - {id};
      }
    }

    // The locking query of the worker.
    method SelectDue(batchSize: nat, now: Time, busy: set<ListingId>) returns (ids: seq<ListingId>)
      ensures IsDueBatch(listings, batchSize, now, busy, ids)
      ensures SoonestDue(listings, batchSize, now, busy, ids)
    {
      hide SoonestDue, ExpiresNoLater, Due, DueListings, Picked, IsDueBatch;
      DueAreListed(listings, now);
      var rest := DueListings(listings, now) - busy;
      ids := [];
      ghost var due := rest;
      NothingPicked(listings, due);
      while |ids| < batchSize && rest != {}
        invariant Picked(listings, due, ids, rest) && rest <= due && |ids| <= batchSize
        decreases rest
      {
        var next := Soonest(rest);
        PickNext(listings, due, ids, rest, next);
        ids, rest := ids + [next], rest - {next};
      }
      PickedBatch(listings, batchSize, now, busy, ids, rest);
      BatchIsSoonest(listings, batchSize, now, busy, ids);
    }

    // Expire one locked row if it is still due.
    method ExpireLocked(id: ListingId, now: Time) returns (expired: bool)
      requires Valid() && id in listings
      modifies this
      ensures Valid()
      ensures expired == Due(old(listings)[id], now)
      ensures listings == old(listings)[id := ExpiredRow(old(listings)[id], now)]
    {
      hide Core, InFeed, Current;
      ExpiredRowFacts(listings[id], now);
      var listing := listings[id];
      if listing.status != Published || listing.expiresAt.None? || listing.expiresAt.value > now {
        return false;
      }
      var previous := listing.status;
      listing := listing.(status := Expired, publishedAt := None, revision := listing.revision + 1);
      listing := listing.(audit := listing.audit + [Action(ExpiredAction, previous, Expired)]);
      listing := listing.(outbox := listing.outbox + [OutboxKey(ListingExpired, listing.revision)]);
      listings := listings[id := listing];
      expired := true;
    }

    method ExpireDueListings(batchSize: nat, now: Time, busy: set<ListingId>)
      returns (count: nat, ghost ids: seq<ListingId>)
      requires Valid()
      modifies this
      ensures Valid()
      ensures IsDueBatch(old(listings), batchSize, now, busy, ids) && count == |ids|
      ensures ExpiredRows(old(listings), listings, ids, now)
      ensures |DueListings(listings, now)| == |DueListings(old(listings), now)| - count
      ensures forall shown, later :: later >= now ==>
        && PublicListings(listings, shown, later) == PublicListings(old(listings), shown, later)
        && FeedListings(listings, shown, later) == FeedListings(old(listings), shown, later)
    {
      hide SoonestDue, Core, Expire, ExpiredRow, Due, InFeed, Current, PublicListings, FeedListings, ExpiresNoLater;
      var batch := SelectDue(batchSize, now, busy);
      ids := batch;
      ghost var before := listings;
      assert forall id :: id in batch ==> id in DueListings(before, now);
      count := 0;
      for i := 0 to |batch|
        invariant Valid() && count == i
        invariant listings.Keys == before.Keys
        invariant forall id :: id in before ==>
          listings[id] == if id in batch[..i] then ExpiredRow(before[id], now) else before[id]
      {
        var id := batch[i];
        assert batch[..i + 1] == batch[..i] + [id];
        assert id in batch && id !in batch[..i];
        var expired := ExpireLocked(id, now);
        count := count + if expired then 1 else 0;
      }
      assert batch[..|batch|] == batch;
      ExpiryDrains(before, listings, batch, now);
      forall shown, later | later >= now
        ensures PublicListings(listings, shown, later) == PublicListings(before, shown, later)
        ensures FeedListings(listings, shown, later) == FeedListings(before, shown, later)
      {
        ExpiryIsInvisible(before, listings, batch, now, shown, later);
      }
    }

    // Run after run, the worker expires all that is due and nothing else.
    method ExpireUntilIdle(batchSize: nat, now: Time) returns (runs: nat, total: nat)
      requires Valid() && batchSize >= 1
      modifies this
      ensures Valid() && DueListings(listings, now) == {}
      ensures listings.Keys == old(listings).Keys
      ensures forall id :: id in old(listings) ==> listings[id] == ExpiredRow(old(listings)[id], now)
      ensures total == |DueListings(old(listings), now)| && (runs - 1) * batchSize <= total <= runs * batchSize
    {
      hide Core, ExpiredRow, Due, ExpiredRows, Progress, PublicListings, FeedListings, ExpiresNoLater;
      ghost var before := listings;
      ProgressStarts(before, now);
      runs, total := 0, 0;
      var count := batchSize;
      while count == batchSize
        invariant Valid() && Progress(before, listings, now)
        invariant total + |DueListings(listings, now)| == |DueListings(before, now)|
        invariant count <= batchSize
        invariant count < batchSize ==> |DueListings(listings, now)| == 0
        invariant if count == batchSize then total == runs * batchSize
          else (runs - 1) * batchSize <= total <= runs * batchSize
        decreases |DueListings(listings, now)|, count
      {
        ghost var t := listings;
        ghost var ids;
        count, ids := ExpireDueListings(batchSize, now, {});
        ProgressGoesOn(before, t, listings, ids, now);
        assert DueListings(t, now) - {} == DueListings(t, now);
        runs, total := runs + 1, total + count;
      }
      ProgressEnds(before, listings, now);
    }
  }

  // Between runs each row is as it was or already expired.
  ghost predicate Progress(before: Table, t: Table, now: Time) {
    && AllCore(before) && t.Keys == before.Keys
    && forall id :: id in before ==>
         (t[id] == before[id] || t[id] == ExpiredRow(before[id], now))
           && (!Due(t[id], now) ==> t[id] == ExpiredRow(before[id], now))
  }

  lemma ProgressStarts(before: Table, now: Time)
    requires AllCore(before)
    ensures Progress(before, before, now)
  {
    forall id | id in before
      ensures !Due(before[id], now) ==> before[id] == ExpiredRow(before[id], now)
    {
      ExpiredRowFacts(before[id], now);
    }
  }

  lemma ProgressGoesOn(before: Table, t: Table, u: Table, ids: seq<ListingId>, now: Time)
    requires Progress(before, t, now) && AllCore(t) && ExpiredRows(t, u, ids, now)
    ensures Progress(before, u, now)
  {
    forall id | id in before
      ensures u[id] == before[id] || u[id] == ExpiredRow(before[id], now)
      ensures !Due(u[id], now) ==> u[id] == ExpiredRow(before[id], now)
    {
      ExpiredRowFacts(before[id], now);
      ExpiredRowFacts(t[id], now);
    }
  }

  lemma ProgressEnds(before: Table, t: Table, now: Time)
    requires Progress(before, t, now) && |DueListings(t, now)| == 0
    ensures DueListings(t, now) == {} && t.Keys == before.Keys
    ensures forall id :: id in before ==> t[id] == ExpiredRow(before[id], now)
  {
    assert forall id :: id in t && Due(t[id], now) ==> id in DueListings(t, now);
  }

  // ---- sold listings ----

  ghost predicate SoldDates(r: Record) {
    r.status == Sold ==> r.soldAt.Some? && r.soldPublicUntil == Some(r.soldAt.value + 30 * DAY)
  }

  // A step keeps the sale columns, or leaves a status other than sold.
  ghost predicate SaleKept(r: Record, s: Record) {
    s.status != Sold || (r.status == Sold && s.soldAt == r.soldAt && s.soldPublicUntil == r.soldPublicUntil)
  }

  lemma ProcessKeepsSale(r: Record, i: nat, now: Time)
    requires ProcessEvent(r, i, now).Ok?
    ensures SaleKept(r, ProcessEvent(r, i, now).value)
  {
    if Publishes(r, i) {
      Publishing(r, i, now);
    } else {
      NotPublishing(r, i, now);
    }
  }

  lemma LocalKeepsSale(r: Record, order: nat, now: Time)
    requires RecordLocalPayment(r, order, now).Ok?
    ensures SaleKept(r, RecordLocalPayment(r, order, now).value)
  {
    hide ProcessEvent;
    var found := FindEvent(r.books.events, LocalPayment(order));
    if found.Some? {
      ProcessKeepsSale(r, found.value, now);
    } else {
      var o := r.books.orders[order];
      var e := PaymentEvent(LocalPayment(order), PaymentSucceeded, order, o.totalMinor, o.currency, Received, None,
        NoReason);
      ProcessKeepsSale(r.(books := r.books.(events := r.books.events + [e])), |r.books.events|, now);
    }
  }

  lemma ModerateLeavesUnsold(r: Record, m: Moderation, now: Time)
    requires Core(r) && Moderate(r, m, now).Ok?
    ensures Moderate(r, m, now).value.status != Sold
  {
    hide ImagesReviewed, VideosReviewed, Moderate, Core, History, KeysBelow, BooksOk, Balanced, Compact, Concluded,
      EffectiveOutcome;
    var reviewed, outcome, decided := ModerateStages(r, m, now);
    DecidedKeeps(reviewed, m.actor, outcome, now);
    CoreParts(reviewed);
    ConcludedKeeps(decided, m, outcome, now);
  }

  lemma BillingKeepsSale(r: Record, step: Step)
    requires Core(r) && IsBillingStep(step) && Apply(r, step).Ok?
    ensures SaleKept(r, Apply(r, step).value)
  {
    hide ProcessEvent, RecordLocalPayment, RefundRejected;
    match step
    case DoProcess(event, now) => ProcessKeepsSale(r, event, now);
    case DoLocalPayment(order, now) => LocalKeepsSale(r, order, now);
    case DoRefund(now) => RefundRejectedKeeps(r, now);
    case _ =>
  }

  lemma StepKeepsSold(r: Record, step: Step)
    requires Core(r) && SoldDates(r)
    ensures SoldDates(Next(r, step))
  {
    if Apply(r, step).Ok? {
      if IsContentStep(step) {
        ContentLeavesLive(r, step);
      } else if IsBillingStep(step) {
        BillingKeepsSale(r, step);
      } else if step.DoModerate? {
        ModerateLeavesUnsold(r, step.m, step.now);
      } else {
        OthersKeepSold(r, step);
      }
    }
  }

  lemma OthersKeepSold(r: Record, step: Step)
    requires SoldDates(r) && !IsContentStep(step) && !IsBillingStep(step) && !step.DoModerate? && Apply(r, step).Ok?
    ensures SoldDates(Apply(r, step).value)
  {
  }

  lemma {:induction false} SoldRun(r: Record, steps: seq<Step>)
    requires Core(r) && SoldDates(r)
    ensures SoldDates(Run(r, steps))
  {
    if steps != [] {
      SoldRun(r, steps[..|steps| - 1]);
      RunKeepsCore(r, steps[..|steps| - 1]);
      StepKeepsSold(Run(r, steps[..|steps| - 1]), steps[|steps| - 1]);
    }
  }

  // Clearing the column once its time has passed changes no feed from then on.
  lemma ClearingIsInvisible(r: Record, now: Time, later: Time)
    requires r.status == Sold && r.soldPublicUntil.Some? && r.soldPublicUntil.value <= now <= later
    ensures InFeed(r.(soldPublicUntil := None), later) == InFeed(r, later)
  {
  }

  // In every reachable state a seller's feed shows a sold listing for exactly
  // thirty days after the sale, and a published one until it expires.
  lemma FeedWindow(wanted: bool, required: nat, maximum: nat, steps: seq<Step>, now: Time)
    ensures var r := Run(NewDraft(wanted, required, maximum), steps);
      InFeed(r, now) <==>
        || (r.status == Published && (r.expiresAt.Some? ==> now < r.expiresAt.value))
        || (r.status == Sold && r.soldAt.Some? && now < r.soldAt.value + 30 * DAY)
  {
    SoldRun(NewDraft(wanted, required, maximum), steps);
  }
}
