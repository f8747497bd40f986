// The types of outbox events.
module EventTypes {
  // The event types services enqueue; Named is any other text.
  datatype EventType =
    | ListingApproved | ListingChangesRequested | ListingRejected | ListingSold | ListingExpired
    | ExpirationReminder | PaymentReady | Named(name: string)

  // The types with an entry in the handler table. PaymentReady has none.
  predicate Handled(t: EventType) {
    !t.PaymentReady? && !t.Named?
  }
}
