/** `/api/support-messages`: GET lists every ticket newest first (the route
    itself checks no session); POST opens a ticket for the caller. */
module SupportMessages {
  import opened Common
  import opened Records
  import opened SupportStore

  const DefaultPriority := "medium"
  const OpenStatus := "open"

  /** GET: the tickets ordered by creation time, newest first, or 500 when
      the query fails (`queryOk` is its outcome). */
  method GetMessages(store: Store, queryOk: bool) returns (resp: HttpResult<seq<Ticket>>)
    ensures resp.Fail? <==> !queryOk
    ensures resp.Fail? ==> resp == Fail(500, "Failed to fetch support messages")
    ensures resp.Ok? ==> multiset(resp.value) == multiset(store.tickets) && NewestFirstOrder(resp.value)
  {
    if !queryOk {
      return Fail(500, "Failed to fetch support messages");
    }
    resp := Ok(NewestFirst(store.tickets));
  }

  /** The JSON body. `subject` and `message` are `None` when absent or null;
      `priority` is `None` only when the field is absent. */
  datatype MessageBody = MessageBody(subject: Option<string>, message: Option<string>, priority: Option<string>)

  /** `const { priority = 'medium' } = body`: the default applies only to an
      absent field, so an empty priority is kept as it is. */
  function PriorityOf(body: MessageBody): (p: string)
    ensures body.priority.None? ==> p == DefaultPriority
    ensures body.priority.Some? ==> p == body.priority.value
  {
    match body.priority
    case None => DefaultPriority
    case Some(given) => given
  }

  /** The row inserted into `support_messages`. */
  function NewTicket(body: MessageBody, caller: string, id: string, now: int): (t: Ticket)
    requires Present(body.subject) && Present(body.message)
    ensures t.id == id && t.userId == caller && t.createdAt == now
    ensures t.subject == body.subject.value && t.message == body.message.value
    ensures t.priority == PriorityOf(body) && t.status == OpenStatus
  {
    Ticket(id, caller, body.subject.value, body.message.value, PriorityOf(body), OpenStatus, now)
  }

  /** A new ticket is `medium` exactly when no priority was sent or `medium`
      was sent; an empty priority stays empty. */
  lemma PriorityDefaultsOnlyWhenAbsent(body: MessageBody, caller: string, id: string, now: int)
    requires Present(body.subject) && Present(body.message)
    ensures NewTicket(body, caller, id, now).priority == DefaultPriority
      <==> body.priority.None? || body.priority == Some(DefaultPriority)
    ensures body.priority == Some("") ==> NewTicket(body, caller, id, now).priority == ""
  {
  }

  /** POST. `session` is the authenticated user id, `id` the id the database
      assigns and `insertOk` the outcome of the insert; an insert that would
      repeat an id fails like any other insert error. */
  method PostMessage(store: Store, body: Option<MessageBody>, session: Option<string>, id: string, now: int,
                     insertOk: bool)
    returns (resp: HttpResult<Ticket>)
    requires store.Valid()
    modifies store
    ensures store.Valid()
    ensures body.None? ==> resp == Fail(500, "Internal server error")
    ensures body.Some? && !(Present(body.value.subject) && Present(body.value.message))
      ==> resp == Fail(400, "Subject and message are required")
    ensures body.Some? && Present(body.value.subject) && Present(body.value.message) ==>
      && (session.None? ==> resp == Fail(401, "Unauthorized"))
      && (session.Some? && session.value !in old(store.users) ==> resp == Fail(404, "User not found"))
      && (session.Some? && session.value in old(store.users) && (!insertOk || HasTicketId(old(store.tickets), id))
          ==> resp == Fail(500, "Failed to create support message"))
      && (session.Some? && session.value in old(store.users) && insertOk && !HasTicketId(old(store.tickets), id)
          ==> resp == Ok(NewTicket(body.value, session.value, id, now)))
    ensures resp.Fail? ==> unchanged(store)
    ensures resp.Ok? ==> store.tickets == old(store.tickets) + [resp.value]
    ensures store.users == old(store.users) && store.replies == old(store.replies)
    ensures store.lastSeen == old(store.lastSeen)
  {
    if body.None? {
      return Fail(500, "Internal server error");
    }
    var b := body.value;
    if !Present(b.subject) || !Present(b.message) {
      return Fail(400, "Subject and message are required");
    }
    if session.None? {
      return Fail(401, "Unauthorized");
    }
    if session.value !in store.users {
      return Fail(404, "User not found");
    }
    if !insertOk || HasTicketId(store.tickets, id) {
      return Fail(500, "Failed to create support message");
    }
    var ticket := NewTicket(b, store.users[session.value].id, id, now);
    store.tickets := store.tickets + [ticket];
    resp := Ok(ticket);
  }
}
