// One listing with everything its services lock: its row, images and videos,
// orders and payment events, moderation history and outbox keys. Each service
// is a function from the stored record to the record it commits, or to the
// reason it aborts and leaves the record alone. A service reads the clock once.
module Listings {
  import opened Wrappers
  import opened EventTypes
  import opened Media
  import opened Ledger
  import Text

  datatype Status =
    | Draft | Submitted | AwaitingPayment | InReview | Published | ChangesRequested
    | Rejected | Suspended | Sold | Expired | Archived

  datatype ActionKind =
    | SubmittedAction | ClaimedAction | Approved | ApprovedNoPayment | ApprovedSendPaymentLink
    | ChangesRequestedAction | RejectedAction | SuspendedAction
    | ImageApproved | ImageRejected | VideoApproved | VideoRejected | PolicyFlagged
    | DirectApproval | MaterialEdit | MarkedSold | ArchivedAction | RestoredDraft
    | RenewedAction | ExpiredAction

  // One row of the append-only moderation history.
  datatype Action = Action(kind: ActionKind, from: Status, to: Status)

  // The part of an idempotency key that varies within one listing.
  datatype OutboxKey = OutboxKey(eventType: EventType, revision: nat)

  datatype Record = Record(
    wanted: bool,
    status: Status,
    publishedAt: Option<Time>,
    firstPublishedAt: Option<Time>,
    soldAt: Option<Time>,
    soldPublicUntil: Option<Time>,
    expiresAt: Option<Time>,
    lastMaterialEditAt: Option<Time>,
    revision: nat,
    moderator: Option<nat>,
    requiredImages: nat,        // the media policy of the listing's category
    maximumImages: nat,
    images: seq<Image>,
    videos: seq<Video>,
    books: Books,
    audit: seq<Action>,
    outbox: seq<OutboxKey>,
    content: nat,               // bookkeeping: counts changes of text, media and facts
    approved: Option<nat>)      // bookkeeping: the content a moderator last approved

  datatype Abort =
    | Denied | WrongStatus | Stale | Unsupported | MissingReason | BadDecisions | TooFewImages | TooManyImages
    | NoSuchRow | NotEligible | NotConfigured | ManyLines | LinkDisabled | DuplicateKey | ConstraintViolated

  type Outcome = Result<Record, Abort>

  function NewDraft(wanted: bool, required: nat, maximum: nat): Record {
    Record(wanted, Draft, None, None, None, None, None, None, 0, None, required, maximum,
           [], [], Books([], []), [], [], 0, None)
  }

  // ---- pieces shared by the services ----

  // Listing.save: the first save of a published listing fixes its first publication.
  function Saved(r: Record, now: Time): Record {
    if r.status == Published && r.firstPublishedAt.None?
    then r.(firstPublishedAt := Some(if r.publishedAt.Some? then r.publishedAt.value else now))
    else r
  }

  // A status change with its revision bump and its history row.
  function Moved(r: Record, kind: ActionKind, to: Status): Record {
    r.(status := to, revision := r.revision + 1, audit := r.audit + [Action(kind, r.status, to)])
  }

  // The unique idempotency key may refuse the event.
  function Enqueued(r: Record, eventType: EventType): Outcome {
    var key := OutboxKey(eventType, r.revision);
    if key in r.outbox then Err(DuplicateKey) else Ok(r.(outbox := r.outbox + [key]))
  }

  predicate Editable(s: Status) {
    s == Draft || s == ChangesRequested || s == Published
  }

  // A material edit of a published listing takes it back into review.
  function Depublished(r: Record, now: Time): Record {
    if r.status != Published then r
    else Moved(r, MaterialEdit, InReview).(publishedAt := None, lastMaterialEditAt := Some(now))
  }

  // New content, published or not.
  function Changed(r: Record, now: Time): Record {
    Depublished(r.(content := r.content + 1), now)
  }

  // ---- submission and review ----

  function Submit(r: Record, permitted: bool, flags: nat): Outcome {
    if !permitted then Err(Denied)
    else if r.status != Draft && r.status != ChangesRequested then Err(WrongStatus)
    else if |ReadySet(r.images)| < r.requiredImages then Err(TooFewImages)
    else
      var submitted := Moved(r, SubmittedAction, Submitted);
      var inReview := Moved(submitted, SubmittedAction, InReview);
      Ok(inReview.(audit := inReview.audit + seq(flags, i => Action(PolicyFlagged, InReview, InReview))))
  }

  function ClaimReview(r: Record, permitted: bool, actor: nat, revision: int): Outcome {
    if !permitted then Err(Denied)
    else if r.revision != revision then Err(Stale)
    else if r.status != InReview then Err(WrongStatus)
    else if r.moderator.Some? && r.moderator.value != actor then Err(Denied)
    else Ok(Moved(r, ClaimedAction, r.status).(moderator := Some(actor)))
  }

  // A moderator's verdict on one image or video and the reason shown to the seller.
  datatype Verdict = Verdict(review: Review, reason: string)

  function PendingImages(images: seq<Image>): set<nat> {
    set i | 0 <= i < |images| && images[i].ready && images[i].review == PendingReview
  }

  function PendingVideos(videos: seq<Video>): set<nat> {
    set i | 0 <= i < |videos| && videos[i].ready && videos[i].review == PendingReview
  }

  predicate Explained(verdicts: map<nat, Verdict>) {
    forall i :: i in verdicts && verdicts[i].review == RejectedReview ==> !Text.Blank(verdicts[i].reason)
  }

  function ReviewedImage(image: Image, v: Verdict): Image {
    image.(review := v.review, reason := Text.Strip(v.reason))
  }

  function ReviewedVideo(video: Video, v: Verdict): Video {
    video.(review := v.review, reason := Text.Strip(v.reason))
  }

  // The history rows of the verdicts on ids, in their order.
  function VerdictActions(ids: seq<nat>, verdicts: map<nat, Verdict>, status: Status, yes: ActionKind,
    no: ActionKind): seq<Action> {
    if ids == [] then []
    else
      var last := ids[|ids| - 1];
      VerdictActions(ids[..|ids| - 1], verdicts, status, yes, no) +
      if last in verdicts then [Action(if verdicts[last].review == ApprovedReview then yes else no, status, status)]
        else []
  }

  function ReadyVideos(videos: seq<Video>): seq<nat> {
    ReadyVideosBelow(videos, |videos|)
  }

  function ReadyVideosBelow(videos: seq<Video>, n: nat): (ids: seq<nat>)
    requires n <= |videos|
    ensures forall i :: 0 <= i < |ids| ==> ids[i] < n && videos[ids[i]].ready
  {
    if n == 0 then []
    else ReadyVideosBelow(videos, n - 1) + if videos[n - 1].ready then [n - 1] else []
  }

  // Every pending image needs a verdict, and nothing else may have one.
  function ImagesReviewed(r: Record, verdicts: map<nat, Verdict>): Outcome {
    if PendingImages(r.images) != verdicts.Keys then Err(BadDecisions)
    else if !Explained(verdicts) then Err(MissingReason)
    else
      Ok(r.(images := seq(|r.images|, i requires 0 <= i < |r.images| =>
                        if i in verdicts then ReviewedImage(r.images[i], verdicts[i]) else r.images[i]),
            audit := r.audit
              + VerdictActions(ReadyInOrder(r.images), verdicts, r.status, ImageApproved, ImageRejected)))
  }

  function VideosReviewed(r: Record, verdicts: map<nat, Verdict>): Outcome {
    if PendingVideos(r.videos) != verdicts.Keys then Err(BadDecisions)
    else if !Explained(verdicts) then Err(MissingReason)
    else
      Ok(r.(videos := seq(|r.videos|, i requires 0 <= i < |r.videos| =>
                        if i in verdicts then ReviewedVideo(r.videos[i], verdicts[i]) else r.videos[i]),
            audit := r.audit + VerdictActions(ReadyVideos(r.videos), verdicts, r.status, VideoApproved, VideoRejected)))
  }

  function ApprovedImages(images: seq<Image>): set<nat> {
    set i | 0 <= i < |images| && images[i].ready && images[i].review == ApprovedReview
  }

  predicate EnoughApproved(r: Record) {
    |ApprovedImages(r.images)| >= r.requiredImages
  }

  // ---- orders ----

  // Server prices for the first publication: each extra county adds to the
  // primary placement. A duration of 0 stands for none configured.
  datatype Quote = Quote(primaryMinor: nat, additionalMinor: nat, counties: nat, primaryDays: nat, additionalDays: nat)

  function DaysOr30(days: nat): nat {
    if days == 0 then 30 else days
  }

  predicate HasOrder(orders: seq<Order>, purpose: Purpose) {
    exists i :: 0 <= i < |orders| && orders[i].purpose == purpose
  }

  function QuoteOrder(q: Quote): Order {
    var primary := Line(q.primaryMinor, 1, DaysOr30(q.primaryDays));
    var additional := Line(q.additionalMinor, q.counties, DaysOr30(q.additionalDays));
    Order(NewListing, Pending, "USD", q.primaryMinor + q.additionalMinor * q.counties, None,
          if q.counties == 0 then [primary] else [primary, additional])
  }

  // An existing order for the first publication, whatever its status, is returned as it is.
  function CreateQuote(r: Record, permitted: bool, quote: Option<Quote>): Outcome {
    if !permitted then Err(Denied)
    else if r.status != AwaitingPayment then Err(NotEligible)
    else if HasOrder(r.books.orders, NewListing) then Ok(r)
    else if quote.None? then Err(NotConfigured)
    else Ok(r.(books := r.books.(orders := r.books.orders + [QuoteOrder(quote.value)])))
  }

  // The price and publication length of a renewal.
  datatype Terms = Terms(amountMinor: nat, currency: string, durationDays: Option<nat>)

  function RenewalOrder(t: Terms): Order
    requires t.durationDays.Some?
  {
    Order(Renewal, Pending, t.currency, t.amountMinor, None, [Line(t.amountMinor, 1, t.durationDays.value)])
  }

  function CreateCheckout(r: Record, permitted: bool, purpose: Purpose, quote: Option<Quote>,
    terms: Option<Terms>): Outcome {
    if !permitted then Err(Denied)
    else if purpose == NewListing then CreateQuote(r, permitted, quote)
    else if r.status != Expired && r.status != Published then Err(NotEligible)
    else if exists i :: 0 <= i < |r.books.orders| && UnpaidRenewal(r.books.orders[i]) then Ok(r)
    else if terms.None? || terms.value.durationDays.None? then Err(NotConfigured)
    else if terms.value.durationDays.value == 0 then Err(ConstraintViolated)
    else Ok(r.(books := r.books.(orders := r.books.orders + [RenewalOrder(terms.value)])))
  }

  // Renewals are offered for seven days after expiry to listings without a material edit since approval.
  predicate InGrace(r: Record, now: Time) {
    r.expiresAt.Some? && now <= r.expiresAt.value + 7 * DAY && r.lastMaterialEditAt.None?
  }

  function CreateRenewal(r: Record, permitted: bool, terms: Option<Terms>, now: Time): Outcome {
    if !permitted then Err(Denied)
    else if !InGrace(r, now) then Err(NotEligible)
    else CreateCheckout(r, permitted, Renewal, None, terms)
  }

  // ---- payment events ----

  function WithEvent(r: Record, i: nat, e: PaymentEvent): Record
    requires i < |r.books.events|
  {
    r.(books := r.books.(events := r.books.events[i := e]))
  }

  function WithOrder(r: Record, i: nat, o: Order): Record
    requires i < |r.books.orders|
  {
    r.(books := r.books.(orders := r.books.orders[i := o]))
  }

  function PaidOrder(o: Order, now: Time): Order {
    o.(status := Paid, paidAt := Some(now))
  }

  // The new publication of a settled first payment.
  function PaidPublication(r: Record, o: Order, now: Time): Record {
    var published := Moved(r, Approved, Published).(publishedAt := Some(now));
    Saved(
      if !r.wanted && o.lines != [] then published.(expiresAt := Some(now + o.lines[0].durationDays * DAY))
      else published, now)
  }

  // A settled renewal publishes again whatever the status has become since its
  // order was created.
  function PaidRenewal(r: Record, o: Order, now: Time): Outcome {
    if r.expiresAt.None? then Err(NotEligible)
    else if |o.lines| != 1 then Err(ManyLines)
    else if !InGrace(r, now) then Err(NotEligible)
    else
      Enqueued(Saved(Moved(r, RenewedAction, Published).(publishedAt := Some(now),
                                                         expiresAt := Some(now + o.lines[0].durationDays * DAY)), now),
               ListingApproved)
  }

  // One durable event, new, failed before, or already settled.
  function ProcessEvent(r: Record, i: nat, now: Time): Outcome {
    if i >= |r.books.events| || r.books.events[i].order >= |r.books.orders| then Err(NoSuchRow)
    else
      var e := r.books.events[i];
      var o := r.books.orders[e.order];
      var done := e.(processedAt := Some(now));
      if e.status == Processed || e.status == Ignored then Ok(r)
      else if e.kind == ChargeRefunded then
        if !Matches(e, o) then Ok(WithEvent(r, i, done.(status := FailedEvent, failureReason := RefundMismatch)))
        else if o.status == Refunded || o.status == Pending || o.status == PaymentFailed
        then Ok(WithEvent(r, i, done.(status := Ignored)))
        else Ok(WithEvent(WithOrder(r, e.order, o.(status := Refunded)), i, done.(status := Processed)))
      else if e.kind != PaymentSucceeded then Ok(WithEvent(r, i, done.(status := Ignored)))
      else if !Matches(e, o) then Ok(WithEvent(r, i, done.(status := FailedEvent, failureReason := PaymentMismatch)))
      else if o.status != Pending then Ok(WithEvent(r, i, done.(status := Ignored)))
      else if o.purpose == Renewal then
        match PaidRenewal(r, o, now)
        case Err(abort) => Err(abort)
        case Ok(renewed) => Ok(WithEvent(WithOrder(renewed, e.order, PaidOrder(o, now)), i, done.(status := Processed)))
      else if r.status != AwaitingPayment
      then Ok(WithEvent(r, i, done.(status := FailedEvent, failureReason := NotAwaiting)))
      else if !EnoughApproved(r)
      then Ok(WithEvent(r, i, done.(status := FailedEvent, failureReason := ImagesMissing)))
      else
        Ok(WithEvent(WithOrder(PaidPublication(r, o, now), e.order, PaidOrder(o, now)), i, done.(status := Processed)))
  }

  // A provider's event is stored once per key; an unknown order is refused.
  function ReceiveEvent(r: Record, id: string, kind: EventKind, order: nat, amountMinor: nat,
    currency: string): Outcome {
    if order >= |r.books.orders| then Err(NoSuchRow)
    else if FindEvent(r.books.events, Provider(id)).Some? then Err(DuplicateKey)
    else
      var e := PaymentEvent(Provider(id), kind, order, amountMinor, currency, Received, None, NoReason);
      Ok(r.(books := r.books.(events := r.books.events + [e])))
  }

  // Get or create the deterministic event of an order, then process it.
  function ProcessLocal(r: Record, key: EventKey, kind: EventKind, order: nat, now: Time): Outcome
    requires order < |r.books.orders|
  {
    var found := FindEvent(r.books.events, key);
    if found.Some? then ProcessEvent(r, found.value, now)
    else
      var o := r.books.orders[order];
      var e := PaymentEvent(key, kind, order, o.totalMinor, o.currency, Received, None, NoReason);
      ProcessEvent(r.(books := r.books.(events := r.books.events + [e])), |r.books.events|, now)
  }

  function RecordLocalPayment(r: Record, order: nat, now: Time): Outcome {
    if order >= |r.books.orders| then Err(NoSuchRow)
    else ProcessLocal(r, LocalPayment(order), PaymentSucceeded, order, now)
  }

  // Full refunds of the paid orders among the first n.
  function RefundPaid(r: Record, n: nat, now: Time): Outcome {
    if n == 0 then Ok(r)
    else
      match RefundPaid(r, n - 1, now)
      case Err(abort) => Err(abort)
      case Ok(before) =>
        if n - 1 < |before.books.orders| && before.books.orders[n - 1].status == Paid
        then ProcessLocal(before, LocalRefund(n - 1), ChargeRefunded, n - 1, now)
        else Ok(before)
  }

  function RefundRejected(r: Record, now: Time): Outcome {
    RefundPaid(r, |r.books.orders|, now)
  }

  // ---- moderation outcomes ----

  datatype Moderation = Moderation(
    permitted: bool,
    actor: nat,
    revision: int,
    outcome: ActionKind,
    reason: Option<bool>,             // a reason code, and whether it is active
    images: map<nat, Verdict>,
    videos: map<nat, Verdict>,
    debug: bool,
    quote: Option<Quote>)

  predicate IsApproval(outcome: ActionKind) {
    outcome == Approved || outcome == ApprovedNoPayment || outcome == ApprovedSendPaymentLink
  }

  predicate NeedsReason(outcome: ActionKind) {
    outcome == ChangesRequestedAction || outcome == RejectedAction || outcome == SuspendedAction
  }

  function TargetStatus(outcome: ActionKind): Status
    requires IsApproval(outcome) || NeedsReason(outcome)
  {
    match outcome
    case Approved => Published
    case ApprovedNoPayment => Published
    case ApprovedSendPaymentLink => AwaitingPayment
    case ChangesRequestedAction => ChangesRequested
    case RejectedAction => Rejected
    case SuspendedAction => Suspended
  }

  // The event a moderation outcome enqueues; a suspension enqueues none.
  function OutcomeEvent(outcome: ActionKind): Option<EventType> {
    match outcome
    case Approved => Some(ListingApproved)
    case ApprovedNoPayment => Some(ListingApproved)
    case ApprovedSendPaymentLink => Some(PaymentReady)
    case ChangesRequestedAction => Some(ListingChangesRequested)
    case RejectedAction => Some(ListingRejected)
    case _ => None
  }

  function AllowedOutcome(r: Record, m: Moderation): Option<Abort> {
    if !m.permitted then Some(Denied)
    else if r.revision != m.revision then Some(Stale)
    else if !IsApproval(m.outcome) && !NeedsReason(m.outcome) then Some(Unsupported)
    else if m.outcome == SuspendedAction then
      if r.status != InReview && r.status != Published then Some(WrongStatus)
      else if m.reason != Some(true) then Some(MissingReason)
      else None
    else if !(m.outcome == RejectedAction && r.status == Published) && r.status != InReview then Some(WrongStatus)
    else if NeedsReason(m.outcome) && m.reason != Some(true) then Some(MissingReason)
    else None
  }

  // Publication by a moderator: the last paid order, if any, sets the expiry.
  function ModeratedPublication(r: Record, now: Time): Outcome {
    var published := r.(publishedAt := Some(now),
                        firstPublishedAt := if r.firstPublishedAt.None? then Some(now) else r.firstPublishedAt,
                        lastMaterialEditAt := None);
    var paid := LatestPaid(r.books.orders);
    if paid.None? then Ok(published)
    else
      var lines := r.books.orders[paid.value].lines;
      if |lines| != 1 then Err(ManyLines)
      else Ok(published.(expiresAt := Some(now + lines[0].durationDays * DAY)))
  }

  // The reviewed record takes its new status.
  function Decided(r: Record, actor: nat, outcome: ActionKind, now: Time): Outcome
    requires IsApproval(outcome) || NeedsReason(outcome)
  {
    var moved := Moved(r, outcome, TargetStatus(outcome)).(moderator := Some(actor));
    var decided := if IsApproval(outcome) then moved.(approved := Some(r.content)) else moved;
    if decided.status == Published then ModeratedPublication(decided, now)
    else Ok(decided.(publishedAt := None))
  }

  // What follows the new status in the same transaction.
  function Concluded(r: Record, m: Moderation, outcome: ActionKind, now: Time): Outcome {
    var settled :=
      if outcome == ApprovedSendPaymentLink then
        if !m.debug then Err(LinkDisabled) else CreateQuote(r, true, m.quote)
      else if outcome == RejectedAction then RefundRejected(r, now)
      else Ok(r);
    match settled
    case Err(abort) => Err(abort)
    case Ok(s) =>
      match OutcomeEvent(outcome)
      case None => Ok(s)
      case Some(eventType) => Enqueued(s, eventType)
  }

  // The outcome that takes effect: approval without enough approved images
  // becomes a request for changes.
  function EffectiveOutcome(r: Record, outcome: ActionKind): ActionKind {
    if IsApproval(outcome) && !EnoughApproved(r) then ChangesRequestedAction else outcome
  }

  function Moderate(r: Record, m: Moderation, now: Time): Outcome {
    var refused := AllowedOutcome(r, m);
    if refused.Some? then Err(refused.value)
    else
      match ImagesReviewed(r, m.images)
      case Err(abort) => Err(abort)
      case Ok(withImages) =>
        match VideosReviewed(withImages, m.videos)
        case Err(abort) => Err(abort)
        case Ok(reviewed) =>
          var outcome := EffectiveOutcome(reviewed, m.outcome);
          if outcome != m.outcome && m.reason != Some(true) then Err(MissingReason)
          else
            match Decided(reviewed, m.actor, outcome, now)
            case Err(abort) => Err(abort)
            case Ok(decided) => Concluded(decided, m, outcome, now)
  }

  // ---- the owner's services ----

  datatype OwnerAction = MarkSold | Archive | RestoreDraft

  predicate OwnerMay(action: OwnerAction, s: Status) {
    match action
    case MarkSold => s == Published
    case Archive => s == Draft || s == ChangesRequested || s == Rejected || s == Sold || s == Expired
    case RestoreDraft => s == Archived
  }

  function OwnerTransition(r: Record, permitted: bool, action: OwnerAction, now: Time): Outcome {
    if !permitted then Err(Denied)
    else if !OwnerMay(action, r.status) then Err(WrongStatus)
    else
      match action
      case MarkSold =>
        Enqueued(Moved(r, MarkedSold, Sold).(
                   firstPublishedAt := if r.firstPublishedAt.Some? then r.firstPublishedAt
                                       else if r.publishedAt.Some? then r.publishedAt else Some(now),
                   soldAt := Some(now), soldPublicUntil := Some(now + 30 * DAY), publishedAt := None),
                 ListingSold)
      case Archive => Ok(Moved(r, ArchivedAction, Archived).(publishedAt := None))
      case RestoreDraft => Ok(Moved(r, RestoredDraft, Draft).(publishedAt := None))
  }

  // Any of the draft-update services: new text or facts, possibly another
  // category and with it another media policy.
  function Edit(r: Record, permitted: bool, required: nat, maximum: nat, now: Time): Outcome {
    if !permitted || !Editable(r.status) then Err(Denied)
    else Ok(Changed(Saved(r, now).(requiredImages := required, maximumImages := maximum), now))
  }

  function UploadImage(r: Record, permitted: bool, now: Time): Outcome {
    if !permitted || !Editable(r.status) then Err(Denied)
    else if |ReadySet(r.images)| >= r.maximumImages then Err(TooManyImages)
    else Ok(Changed(r.(images := Uploaded(r.images)), now))
  }

  function ReorderImages(r: Record, permitted: bool, ids: seq<nat>, now: Time): Outcome {
    if !permitted || !Editable(r.status) then Err(Denied)
    else if !CompleteOrder(r.images, ids) then Err(BadDecisions)
    else
      CompleteOrderIsPermutation(r.images, ids);
      Ok(Changed(r.(images := Reordered(r.images, ids)), now))
  }

  function DeleteImage(r: Record, permitted: bool, id: nat, now: Time): Outcome {
    if !permitted || !Editable(r.status) then Err(Denied)
    else if id !in ReadySet(r.images) then Err(NoSuchRow)
    else Ok(Changed(r.(images := Deleted(r.images, id)), now))
  }

  function UploadVideo(r: Record, permitted: bool, now: Time): Outcome {
    if !permitted || !Editable(r.status) then Err(Denied)
    else Ok(Changed(r.(videos := r.videos + [Video(true, PendingReview, "")]), now))
  }

  function DeleteVideo(r: Record, permitted: bool, id: nat, now: Time): Outcome {
    if !permitted || !Editable(r.status) then Err(Denied)
    else if id >= |r.videos| || !r.videos[id].ready then Err(NoSuchRow)
    else Ok(Changed(r.(videos := r.videos[id := r.videos[id].(ready := false)]), now))
  }

  // ---- scheduled and fixture services ----

  predicate Due(r: Record, now: Time) {
    r.status == Published && r.expiresAt.Some? && r.expiresAt.value <= now
  }

  // A listing that is not due is left alone.
  function Expire(r: Record, now: Time): Outcome {
    if !Due(r, now) then Ok(r)
    else Enqueued(Moved(r, ExpiredAction, Expired).(publishedAt := None), ListingExpired)
  }

  function PublishDemo(r: Record, permitted: bool, now: Time): Outcome {
    if r.status == Published then Ok(r)
    else if r.status != Draft then Err(WrongStatus)
    else if !permitted then Err(Denied)
    else Ok(Saved(Moved(r, DirectApproval, Published).(publishedAt := Some(now)), now))
  }
}
