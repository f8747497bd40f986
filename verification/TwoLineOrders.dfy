// Moderation reads the duration of the order last paid from its only line. An
// order with an additional county has two.
module TwoLineOrders {
  import opened Wrappers
  import opened Ledger
  import opened Listings
  import opened Lifecycle
  import opened Publication
  import opened WitnessRuns

  // The checks and verdicts of a moderation pass, and it would publish.
  ghost predicate WouldPublish(r: Record, m: Moderation) {
    && AllowedOutcome(r, m).None? && (m.outcome == Approved || m.outcome == ApprovedNoPayment)
    && ImagesReviewed(r, m.images).Ok?
    && VideosReviewed(ImagesReviewed(r, m.images).value, m.videos).Ok?
    && EnoughApproved(VideosReviewed(ImagesReviewed(r, m.images).value, m.videos).value)
  }

  ghost predicate LatestHasTwoLines(orders: seq<Order>) {
    LatestPaid(orders).Some? && |orders[LatestPaid(orders).value].lines| == 2
  }

  lemma EarlierAborts(r: Record, m: Moderation)
    ensures AllowedOutcome(r, m) != Some(ManyLines) && ImagesReviewed(r, m.images) != Err(ManyLines)
    ensures ImagesReviewed(r, m.images).Ok? ==>
      VideosReviewed(ImagesReviewed(r, m.images).value, m.videos) != Err(ManyLines)
    ensures AllowedOutcome(r, m).None? ==> IsApproval(m.outcome) || NeedsReason(m.outcome)
  {
  }

  lemma ConclusionNeverCountsLines(r: Record, m: Moderation, outcome: ActionKind, now: Time)
    requires BooksOk(r.books)
    ensures Concluded(r, m, outcome, now) != Err(ManyLines)
  {
    if outcome == RejectedAction {
      RefundRejectedKeeps(r, now);
    }
  }

  lemma DecisionCountsLines(r: Record, actor: nat, outcome: ActionKind, now: Time)
    requires BooksOk(r.books) && (IsApproval(outcome) || NeedsReason(outcome))
    ensures Decided(r, actor, outcome, now) == Err(ManyLines) <==>
      (outcome == Approved || outcome == ApprovedNoPayment) && LatestHasTwoLines(r.books.orders)
    ensures Decided(r, actor, outcome, now).Ok? ==> Decided(r, actor, outcome, now).value.books == r.books
  {
    var paid := LatestPaid(r.books.orders);
    if paid.Some? {
      assert OrderOk(r.books, paid.value);
    }
  }

  lemma ReviewedRecord(r: Record, m: Moderation) returns (reviewed: Record)
    requires ImagesReviewed(r, m.images).Ok? && VideosReviewed(ImagesReviewed(r, m.images).value, m.videos).Ok?
    ensures reviewed == VideosReviewed(ImagesReviewed(r, m.images).value, m.videos).value && reviewed.books == r.books
  {
    reviewed := VideosReviewed(ImagesReviewed(r, m.images).value, m.videos).value;
  }

  // An approval aborts over the lines of an order exactly when it would have
  // published and the order last paid has two.
  lemma ManyLinesExactlyWhen(r: Record, m: Moderation, now: Time)
    requires Core(r)
    ensures Moderate(r, m, now) == Err(ManyLines) <==> WouldPublish(r, m) && LatestHasTwoLines(r.books.orders)
  {
    CoreParts(r);
    EarlierAborts(r, m);
    hide Core, BooksOk, AllowedOutcome, ImagesReviewed, VideosReviewed, Decided, Concluded, EnoughApproved,
      LatestHasTwoLines;
    if AllowedOutcome(r, m).None? && ImagesReviewed(r, m.images).Ok?
      && VideosReviewed(ImagesReviewed(r, m.images).value, m.videos).Ok? {
      var reviewed := ReviewedRecord(r, m);
      var outcome := EffectiveOutcome(reviewed, m.outcome);
      DecisionCountsLines(reviewed, m.actor, outcome, now);
      if Decided(reviewed, m.actor, outcome, now).Ok? {
        ConclusionNeverCountsLines(Decided(reviewed, m.actor, outcome, now).value, m, outcome, now);
      }
    }
  }

  // Such a listing is reached by a regular run whose clock never goes back:
  // paid with one additional county, edited, and approved again.
  lemma ReapprovalAborts() returns (steps: seq<Step>, m: Moderation)
    ensures RegularRun(START, steps) && ClockedUpTo(steps, 0)
    ensures Run(START, steps).status == InReview && WouldPublish(Run(START, steps), m)
    ensures forall now :: Moderate(Run(START, steps), m, now) == Err(ManyLines)
  {
    hide Core, RegularRun, Run, ClockedUpTo, Moderate, WouldPublish, LatestHasTwoLines;
    steps := ReachReedited(1);
    var r := Run(START, steps);
    m := Moderation(true, 1, 5, Approved, None, map[], map[], true, None);
    BareWouldPublish(r, m);
    TwoLines(r.books.orders);
    forall now
      ensures Moderate(r, m, now) == Err(ManyLines)
    {
      ManyLinesExactlyWhen(r, m, now);
    }
  }

  lemma BareWouldPublish(r: Record, m: Moderation)
    requires r.status == InReview && r.revision == 5 && r.images == [] && r.videos == [] && r.requiredImages == 0
    requires m == Moderation(true, 1, 5, Approved, None, map[], map[], true, None)
    ensures WouldPublish(r, m)
  {
    assert PendingImages(r.images) == {} && PendingVideos(r.videos) == {};
  }

  lemma TwoLines(orders: seq<Order>)
    requires |orders| == 1 && orders[0].status == Paid && orders[0].lines == QuoteOrder(Prices(1)).lines
    ensures LatestHasTwoLines(orders)
  {
    assert orders[..0] == [];
  }
}
