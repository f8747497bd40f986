// Orders and durable payment events of one listing. An order's id is its
// position; events are kept in insertion order under a unique key.
module Ledger {
  import opened Wrappers

  type Time = int

  const DAY: int := 86_400_000_000

  datatype Purpose = NewListing | Renewal

  datatype OrderStatus = Pending | Paid | PaymentFailed | RefundPending | Refunded

  datatype Line = Line(unitMinor: nat, quantity: nat, durationDays: nat)

  datatype Order = Order(
    purpose: Purpose,
    status: OrderStatus,
    currency: string,
    totalMinor: nat,
    paidAt: Option<Time>,
    lines: seq<Line>)

  // (provider, provider_event_id): the two deterministic local ids, and any other provider's.
  datatype EventKey = LocalPayment(order: nat) | LocalRefund(order: nat) | Provider(id: string)

  datatype EventKind = PaymentSucceeded | ChargeRefunded | OtherKind(name: string)

  datatype EventStatus = Received | Processed | Ignored | FailedEvent

  // The texts failure_reason takes.
  datatype FailureReason = NoReason | RefundMismatch | PaymentMismatch | NotAwaiting | ImagesMissing

  datatype PaymentEvent = PaymentEvent(
    key: EventKey,
    kind: EventKind,
    order: nat,
    amountMinor: nat,
    currency: string,
    status: EventStatus,
    processedAt: Option<Time>,
    failureReason: FailureReason)

  datatype Books = Books(orders: seq<Order>, events: seq<PaymentEvent>)

  predicate Matches(e: PaymentEvent, o: Order) {
    e.amountMinor == o.totalMinor && e.currency == o.currency
  }

  // The position of the event with a key, if one exists.
  function FindEvent(events: seq<PaymentEvent>, key: EventKey): (found: Option<nat>)
    ensures found.Some? ==> found.value < |events| && events[found.value].key == key
    ensures found.None? ==> forall i :: 0 <= i < |events| ==> events[i].key != key
  {
    if events == [] then None
    else if events[|events| - 1].key == key then Some(|events| - 1)
    else FindEvent(events[..|events| - 1], key)
  }

  // The most recently paid order; of equally recent ones, the first created.
  function LatestPaid(orders: seq<Order>): (found: Option<nat>)
    ensures found.Some? ==> found.value < |orders| && orders[found.value].status == Paid
  {
    if orders == [] then None
    else
      var last := |orders| - 1;
      var before := LatestPaid(orders[..last]);
      if orders[last].status == Paid && (before.None? || PaidAfter(orders[last], orders[before.value])) then Some(last)
      else before
  }

  // Descending paid_at puts a missing time first.
  predicate PaidAfter(a: Order, b: Order) {
    b.paidAt.Some? && (a.paidAt.None? || a.paidAt.value > b.paidAt.value)
  }

  // A paid order: none was paid later, none with an unknown time is passed
  // over, and no earlier order is as good.
  ghost predicate PaidLast(orders: seq<Order>, k: nat) {
    && k < |orders| && orders[k].status == Paid
    && forall i :: 0 <= i < |orders| && orders[i].status == Paid ==>
         if orders[k].paidAt.None? then i < k ==> orders[i].paidAt.Some?
         else
           && orders[i].paidAt.Some? && orders[i].paidAt.value <= orders[k].paidAt.value
           && (i < k ==> orders[i].paidAt.value < orders[k].paidAt.value)
  }

  // LatestPaid is a paid order that no other paid order was paid after.
  lemma {:induction false} LatestPaidFacts(orders: seq<Order>)
    ensures LatestPaid(orders).None? <==> forall i :: 0 <= i < |orders| ==> orders[i].status != Paid
    ensures LatestPaid(orders).Some? ==>
      forall i :: 0 <= i < |orders| && orders[i].status == Paid ==>
        !PaidAfter(orders[i], orders[LatestPaid(orders).value])
    ensures LatestPaid(orders).Some? ==> PaidLast(orders, LatestPaid(orders).value)
  {
    if orders != [] {
      LatestPaidFacts(orders[..|orders| - 1]);
    }
  }

  // ---- the invariants of the books ----

  // Whether the event at i moved the money of its order.
  predicate Settles(e: PaymentEvent, order: nat, kind: EventKind) {
    e.status == Processed && e.order == order && e.kind == kind
  }

  function SettledCount(events: seq<PaymentEvent>, order: nat, kind: EventKind): nat {
    if events == [] then 0
    else
      SettledCount(events[..|events| - 1], order, kind) + if Settles(events[|events| - 1], order, kind) then 1 else 0
  }

  // What the lines of an order add up to.
  function LinesTotal(lines: seq<Line>): nat {
    if lines == [] then 0
    else LinesTotal(lines[..|lines| - 1]) + lines[|lines| - 1].unitMinor * lines[|lines| - 1].quantity
  }

  ghost predicate OrderOk(b: Books, i: nat)
    requires i < |b.orders|
  {
    var o := b.orders[i];
    var payments, refunds := SettledCount(b.events, i, PaymentSucceeded), SettledCount(b.events, i, ChargeRefunded);
    && (o.status == Pending || o.status == Paid || o.status == Refunded)
    && payments == (if o.status == Pending then 0 else 1)
    && refunds == (if o.status == Refunded then 1 else 0)
    && (o.paidAt.Some? <==> o.status != Pending)
    && 1 <= |o.lines| <= 2 && o.totalMinor == LinesTotal(o.lines)
    && (o.purpose == Renewal ==> |o.lines| == 1)
  }

  ghost predicate EventOk(b: Books, e: PaymentEvent) {
    && e.order < |b.orders|
    && (e.status == Processed ==>
      (e.kind == PaymentSucceeded || e.kind == ChargeRefunded) && Matches(e, b.orders[e.order]))
    && (e.key.LocalPayment? ==>
          && e.order == e.key.order && e.kind == PaymentSucceeded && Matches(e, b.orders[e.order])
          && (e.status == Processed || e.status == Ignored ==> b.orders[e.order].status != Pending))
    && (e.key.LocalRefund? ==>
          && e.order == e.key.order && e.kind == ChargeRefunded && Matches(e, b.orders[e.order])
          && b.orders[e.order].status == Refunded)
  }

  ghost predicate KeysDistinct(events: seq<PaymentEvent>) {
    forall i, j :: 0 <= i < j < |events| ==> events[i].key != events[j].key
  }

  predicate UnpaidRenewal(o: Order) {
    o.purpose == Renewal && o.status == Pending
  }

  // One order at most pays for the first publication, and one renewal at most is unpaid.
  ghost predicate OneAtATime(orders: seq<Order>) {
    && (forall i, j :: 0 <= i < j < |orders| && orders[i].purpose == NewListing ==> orders[j].purpose != NewListing)
    && (forall i, j :: 0 <= i < j < |orders| && UnpaidRenewal(orders[i]) ==> !UnpaidRenewal(orders[j]))
  }

  ghost predicate BooksOk(b: Books) {
    && (forall i :: 0 <= i < |b.orders| ==> OrderOk(b, i))
    && (forall i :: 0 <= i < |b.events| ==> EventOk(b, b.events[i]))
    && KeysDistinct(b.events)
    && OneAtATime(b.orders)
  }

  // ---- counting under updates ----

  lemma {:induction false} CountUpdate(events: seq<PaymentEvent>, k: nat, e: PaymentEvent, order: nat, kind: EventKind)
    requires k < |events|
    ensures SettledCount(events[k := e], order, kind) ==
      SettledCount(events, order, kind)
      - (if Settles(events[k], order, kind) then 1 else 0) + (if Settles(e, order, kind) then 1 else 0)
  {
    var last := |events| - 1;
    if k == last {
      assert events[k := e][..last] == events[..last];
    } else {
      assert events[k := e][..last] == events[..last][k := e];
      CountUpdate(events[..last], k, e, order, kind);
    }
  }

  lemma CountAppend(events: seq<PaymentEvent>, e: PaymentEvent, order: nat, kind: EventKind)
    ensures SettledCount(events + [e], order, kind) ==
      SettledCount(events, order, kind) + if Settles(e, order, kind) then 1 else 0
  {
    assert (events + [e])[..|events|] == events;
  }

  lemma {:induction false} NoneSettled(events: seq<PaymentEvent>, order: nat, kind: EventKind)
    requires forall i :: 0 <= i < |events| ==> events[i].order != order
    ensures SettledCount(events, order, kind) == 0
  {
    if events != [] {
      NoneSettled(events[..|events| - 1], order, kind);
    }
  }

  // An order with no settled event of a kind has none anywhere in the list.
  lemma {:induction false} CountZero(events: seq<PaymentEvent>, order: nat, kind: EventKind, i: nat)
    requires SettledCount(events, order, kind) == 0 && i < |events|
    ensures !Settles(events[i], order, kind)
  {
    if i < |events| - 1 {
      CountZero(events[..|events| - 1], order, kind, i);
    }
  }

  // ---- the ledger ----

  // What a settled event adds to the money held in a currency.
  function EventValue(e: PaymentEvent, currency: string): int {
    if e.status != Processed || e.currency != currency then 0
    else if e.kind == PaymentSucceeded then e.amountMinor
    else if e.kind == ChargeRefunded then 0 - e.amountMinor
    else 0
  }

  function OrderValue(o: Order, currency: string): int {
    if o.status == Paid && o.currency == currency then o.totalMinor else 0
  }

  // Payments less refunds settled in a currency.
  function Net(events: seq<PaymentEvent>, currency: string): int {
    if events == [] then 0
    else Net(events[..|events| - 1], currency) + EventValue(events[|events| - 1], currency)
  }

  // The totals of the orders held as paid in a currency.
  function HeldPaid(orders: seq<Order>, currency: string): int {
    if orders == [] then 0
    else HeldPaid(orders[..|orders| - 1], currency) + OrderValue(orders[|orders| - 1], currency)
  }

  ghost predicate Balanced(b: Books) {
    forall currency :: Net(b.events, currency) == HeldPaid(b.orders, currency)
  }

  lemma {:induction false} NetUpdate(events: seq<PaymentEvent>, k: nat, e: PaymentEvent, currency: string)
    requires k < |events|
    ensures Net(events[k := e], currency) == Net(events, currency) - EventValue(events[k], currency)
      + EventValue(e, currency)
  {
    var last := |events| - 1;
    if k == last {
      assert events[k := e][..last] == events[..last];
    } else {
      assert events[k := e][..last] == events[..last][k := e];
      NetUpdate(events[..last], k, e, currency);
    }
  }

  lemma NetAppend(events: seq<PaymentEvent>, e: PaymentEvent, currency: string)
    ensures Net(events + [e], currency) == Net(events, currency) + EventValue(e, currency)
  {
    assert (events + [e])[..|events|] == events;
  }

  lemma {:induction false} HeldUpdate(orders: seq<Order>, k: nat, o: Order, currency: string)
    requires k < |orders|
    ensures HeldPaid(orders[k := o], currency) == HeldPaid(orders, currency) - OrderValue(orders[k], currency)
      + OrderValue(o, currency)
  {
    var last := |orders| - 1;
    if k == last {
      assert orders[k := o][..last] == orders[..last];
    } else {
      assert orders[k := o][..last] == orders[..last][k := o];
      HeldUpdate(orders[..last], k, o, currency);
    }
  }

  lemma HeldAppend(orders: seq<Order>, o: Order, currency: string)
    ensures HeldPaid(orders + [o], currency) == HeldPaid(orders, currency) + OrderValue(o, currency)
  {
    assert (orders + [o])[..|orders|] == orders;
  }

  // ---- what the movements of money keep ----

  // How an order may change: its snapshot never, its status only forward.
  predicate OrderForward(a: Order, b: Order) {
    && a.purpose == b.purpose && a.currency == b.currency && a.totalMinor == b.totalMinor && a.lines == b.lines
    && (a.status == b.status || (a.status == Pending && b.status == Paid) || (a.status == Paid && b.status == Refunded))
    && (a.paidAt.Some? ==> b.paidAt == a.paidAt)
  }

  // Closing an event without money moving.
  lemma CloseKeepsBooks(b: Books, i: nat, e: PaymentEvent)
    requires BooksOk(b) && i < |b.events|
    requires b.events[i].status != Processed && e.status != Processed
    requires e == b.events[i].(status := e.status, processedAt := e.processedAt, failureReason := e.failureReason)
    requires e.status == Ignored && e.key.LocalPayment? ==> b.orders[e.order].status != Pending
    ensures BooksOk(b.(events := b.events[i := e]))
    ensures Balanced(b) ==> Balanced(b.(events := b.events[i := e]))
  {
    var c := b.(events := b.events[i := e]);
    forall k | 0 <= k < |c.orders|
      ensures OrderOk(c, k)
    {
      assert OrderOk(b, k);
      CountUpdate(b.events, i, e, k, PaymentSucceeded);
      CountUpdate(b.events, i, e, k, ChargeRefunded);
    }
    forall k | 0 <= k < |c.events|
      ensures EventOk(c, c.events[k])
    {
      assert EventOk(b, b.events[k]);
    }
    forall currency
      ensures Balanced(b) ==> Net(c.events, currency) == HeldPaid(c.orders, currency)
    {
      NetUpdate(b.events, i, e, currency);
    }
  }

  // An event that moves its order one status forward.
  lemma SettleKeepsOrders(b: Books, i: nat, e: PaymentEvent, o: Order)
    requires BooksOk(b) && i < |b.events| && b.events[i].status != Processed
    requires e == b.events[i].(status := Processed, processedAt := e.processedAt)
    requires e.order < |b.orders| && Matches(e, b.orders[e.order]) && OrderForward(b.orders[e.order], o)
    requires (e.kind == PaymentSucceeded && b.orders[e.order].status == Pending && o.status == Paid && o.paidAt.Some?)
          || (e.kind == ChargeRefunded && b.orders[e.order].status == Paid && o.status == Refunded)
    ensures var c := Books(b.orders[e.order := o], b.events[i := e]);
      forall k :: 0 <= k < |c.orders| ==> OrderOk(c, k)
  {
    var c := Books(b.orders[e.order := o], b.events[i := e]);
    forall k | 0 <= k < |c.orders|
      ensures OrderOk(c, k)
    {
      assert OrderOk(b, k);
      CountUpdate(b.events, i, e, k, PaymentSucceeded);
      CountUpdate(b.events, i, e, k, ChargeRefunded);
    }
  }

  lemma SettleKeepsEvents(b: Books, i: nat, e: PaymentEvent, o: Order)
    requires BooksOk(b) && i < |b.events| && b.events[i].status != Processed
    requires e == b.events[i].(status := Processed, processedAt := e.processedAt)
    requires e.order < |b.orders| && Matches(e, b.orders[e.order]) && OrderForward(b.orders[e.order], o)
    requires (e.kind == PaymentSucceeded && b.orders[e.order].status == Pending && o.status == Paid)
          || (e.kind == ChargeRefunded && b.orders[e.order].status == Paid && o.status == Refunded)
    ensures var c := Books(b.orders[e.order := o], b.events[i := e]);
      && (forall k :: 0 <= k < |c.events| ==> EventOk(c, c.events[k]))
      && KeysDistinct(c.events) && OneAtATime(c.orders)
  {
    var c := Books(b.orders[e.order := o], b.events[i := e]);
    forall k | 0 <= k < |c.events|
      ensures EventOk(c, c.events[k])
    {
      assert EventOk(b, b.events[k]);
    }
    assert forall k :: 0 <= k < |c.events| ==> c.events[k].key == b.events[k].key;
    assert forall k :: 0 <= k < |c.orders| ==>
      c.orders[k].purpose == b.orders[k].purpose && (UnpaidRenewal(c.orders[k]) ==> UnpaidRenewal(b.orders[k]));
  }

  // Settling a payment or a refund keeps the books in order and in balance.
  lemma SettleKeepsBooks(b: Books, i: nat, e: PaymentEvent, o: Order)
    requires BooksOk(b) && i < |b.events| && b.events[i].status != Processed
    requires e == b.events[i].(status := Processed, processedAt := e.processedAt)
    requires e.order < |b.orders| && Matches(e, b.orders[e.order]) && OrderForward(b.orders[e.order], o)
    requires (e.kind == PaymentSucceeded && b.orders[e.order].status == Pending && o.status == Paid && o.paidAt.Some?)
          || (e.kind == ChargeRefunded && b.orders[e.order].status == Paid && o.status == Refunded)
    ensures BooksOk(Books(b.orders[e.order := o], b.events[i := e]))
    ensures Balanced(b) ==> Balanced(Books(b.orders[e.order := o], b.events[i := e]))
  {
    SettleKeepsOrders(b, i, e, o);
    SettleKeepsEvents(b, i, e, o);
    var c := Books(b.orders[e.order := o], b.events[i := e]);
    forall currency
      ensures Balanced(b) ==> Net(c.events, currency) == HeldPaid(c.orders, currency)
    {
      NetUpdate(b.events, i, e, currency);
      HeldUpdate(b.orders, e.order, o, currency);
    }
  }

  // A new event, not yet processed.
  lemma ReceiveKeepsBooks(b: Books, e: PaymentEvent)
    requires BooksOk(b) && e.status == Received && EventOk(b, e) && FindEvent(b.events, e.key).None?
    ensures BooksOk(b.(events := b.events + [e]))
    ensures Balanced(b) ==> Balanced(b.(events := b.events + [e]))
  {
    var c := b.(events := b.events + [e]);
    forall k | 0 <= k < |c.orders|
      ensures OrderOk(c, k)
    {
      assert OrderOk(b, k);
      CountAppend(b.events, e, k, PaymentSucceeded);
      CountAppend(b.events, e, k, ChargeRefunded);
    }
    forall k | 0 <= k < |c.events|
      ensures EventOk(c, c.events[k])
    {
      assert k < |b.events| ==> EventOk(b, b.events[k]);
    }
    forall currency
      ensures Balanced(b) ==> Net(c.events, currency) == HeldPaid(c.orders, currency)
    {
      NetAppend(b.events, e, currency);
    }
  }

  // A new unpaid order.
  lemma OrderKeepsBooks(b: Books, o: Order)
    requires BooksOk(b) && o.status == Pending && o.paidAt.None? && 1 <= |o.lines| <= 2
    requires o.totalMinor == LinesTotal(o.lines)
    requires o.purpose == Renewal ==> |o.lines| == 1 && forall i :: 0 <= i < |b.orders| ==> !UnpaidRenewal(b.orders[i])
    requires o.purpose == NewListing ==> forall i :: 0 <= i < |b.orders| ==> b.orders[i].purpose != NewListing
    ensures BooksOk(b.(orders := b.orders + [o]))
    ensures Balanced(b) ==> Balanced(b.(orders := b.orders + [o]))
  {
    var c := b.(orders := b.orders + [o]);
    forall k | 0 <= k < |c.orders|
      ensures OrderOk(c, k)
    {
      if k < |b.orders| {
        assert OrderOk(b, k);
      } else {
        forall j | 0 <= j < |b.events|
          ensures b.events[j].order != k
        {
          assert EventOk(b, b.events[j]);
        }
        NoneSettled(b.events, k, PaymentSucceeded);
        NoneSettled(b.events, k, ChargeRefunded);
      }
    }
    forall k | 0 <= k < |c.events|
      ensures EventOk(c, c.events[k])
    {
      assert EventOk(b, b.events[k]);
    }
    forall currency
      ensures Balanced(b) ==> Net(c.events, currency) == HeldPaid(c.orders, currency)
    {
      HeldAppend(b.orders, o, currency);
    }
  }

  lemma RefundKeepsOrders(b: Books, order: nat, e: PaymentEvent, o: Order)
    requires BooksOk(b) && order < |b.orders| && b.orders[order].status == Paid
    requires e.key == LocalRefund(order) && e.kind == ChargeRefunded && e.order == order && e.status == Processed
    requires o == b.orders[order].(status := Refunded)
    ensures var c := Books(b.orders[order := o], b.events + [e]);
      (forall k :: 0 <= k < |c.orders| ==> OrderOk(c, k)) && OneAtATime(c.orders)
  {
    var c := Books(b.orders[order := o], b.events + [e]);
    forall k | 0 <= k < |c.orders|
      ensures OrderOk(c, k)
    {
      assert OrderOk(b, k);
      CountAppend(b.events, e, k, PaymentSucceeded);
      CountAppend(b.events, e, k, ChargeRefunded);
    }
    assert forall k :: 0 <= k < |c.orders| ==>
      c.orders[k].purpose == b.orders[k].purpose && (UnpaidRenewal(c.orders[k]) ==> UnpaidRenewal(b.orders[k]));
  }

  lemma RefundKeepsEvents(b: Books, order: nat, e: PaymentEvent, o: Order)
    requires BooksOk(b) && order < |b.orders| && b.orders[order].status == Paid
      && FindEvent(b.events, LocalRefund(order)).None?
    requires e.key == LocalRefund(order) && e.kind == ChargeRefunded && e.order == order && e.status == Processed
    requires Matches(e, b.orders[order]) && o == b.orders[order].(status := Refunded)
    ensures var c := Books(b.orders[order := o], b.events + [e]);
      (forall k :: 0 <= k < |c.events| ==> EventOk(c, c.events[k])) && KeysDistinct(c.events)
  {
    var c := Books(b.orders[order := o], b.events + [e]);
    forall k | 0 <= k < |c.events|
      ensures EventOk(c, c.events[k])
    {
      assert k < |b.events| ==> EventOk(b, b.events[k]);
    }
  }

  // The local refund of a paid order, recorded and settled at once.
  lemma RefundKeepsBooks(b: Books, order: nat, e: PaymentEvent, o: Order)
    requires BooksOk(b) && order < |b.orders| && b.orders[order].status == Paid
      && FindEvent(b.events, LocalRefund(order)).None?
    requires e.key == LocalRefund(order) && e.kind == ChargeRefunded && e.order == order && e.status == Processed
    requires Matches(e, b.orders[order]) && o == b.orders[order].(status := Refunded)
    ensures BooksOk(Books(b.orders[order := o], b.events + [e]))
    ensures Balanced(b) ==> Balanced(Books(b.orders[order := o], b.events + [e]))
  {
    var c := Books(b.orders[order := o], b.events + [e]);
    RefundKeepsOrders(b, order, e, o);
    RefundKeepsEvents(b, order, e, o);
    hide OrderOk, EventOk, KeysDistinct, OneAtATime;
    forall currency
      ensures Balanced(b) ==> Net(c.events, currency) == HeldPaid(c.orders, currency)
    {
      NetAppend(b.events, e, currency);
      HeldUpdate(b.orders, order, o, currency);
    }
  }
}
