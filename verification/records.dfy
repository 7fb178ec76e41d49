/** The rows of the hosted database that the core reads and writes, as values.
    Timestamps are integers (seconds since 1970-01-01T00:00:00Z). */
module Records {
  import opened Common

  /** A row of `users`: `role` is `user` or `admin`. */
  datatype User = User(id: string, email: string, fullName: Option<string>, role: string)

  /** A row of `shipments`. The status is free text: nothing enforces a
      transition graph. `weight` holds the weight as it was entered. */
  datatype Shipment = Shipment(
    id: string,
    trackingNumber: string,
    userId: string,
    status: string,
    currentLocation: string,
    origin: string,
    destination: string,
    description: Option<string>,
    weight: Option<string>,
    dimensions: Option<string>,
    estimatedDelivery: Option<string>,
    createdAt: int,
    updatedAt: int)

  /** A row of `tracking_events`: an append-only log entry of one shipment. */
  datatype TrackingEvent = TrackingEvent(
    shipmentId: string,
    status: string,
    location: string,
    description: string,
    timestamp: int)

  /** A row of `support_messages` (a ticket). */
  datatype Ticket = Ticket(
    id: string,
    userId: string,
    subject: string,
    message: string,
    priority: string,
    status: string,
    createdAt: int)

  /** A row of `support_replies`. */
  datatype Reply = Reply(
    ticketId: string,
    userId: string,
    message: string,
    isAdminReply: bool,
    createdAt: int)

  /** A row of `support_last_seen`. */
  datatype LastSeen = LastSeen(userId: string, lastSeenAt: int)
}
