/** `POST /api/support-replies`: a reply to a support ticket, by an admin or
    by the ticket's owner. An admin reply moves the ticket to `in_progress`
    and emails the owner. */
module SupportReplies {
  import opened Common
  import opened Records
  import opened SupportStore
  import Email

  const AdminRole := "admin"
  const InProgress := "in_progress"

  /** The JSON body; a field is `None` when it is absent or null. */
  datatype ReplyBody = ReplyBody(supportMessageId: Option<string>, message: Option<string>)

  predicate WellFormed(body: ReplyBody)
  {
    Present(body.supportMessageId) && Present(body.message)
  }

  /** An admin may reply to any ticket; anyone else only to their own. */
  predicate MayReply(caller: User, ticket: Ticket)
  {
    caller.role == AdminRole || ticket.userId == caller.id
  }

  /** What the checks before the insert decide: a rejection with its status,
      or the caller's user row, the ticket and the reply text. */
  datatype Gate =
    | Rejected(status: int, error: string)
    | Admitted(caller: User, ticket: Ticket, message: string)

  /** The checks of the handler, in order: a body that is not JSON (500), a
      missing id or message (400), no session (401), no user row (404), no
      such ticket (404), neither admin nor owner (403). `session` is the
      authenticated user id, if any. */
  function ReplyGate(body: Option<ReplyBody>, session: Option<string>, users: map<string, User>,
                     tickets: seq<Ticket>): (g: Gate)
    ensures body.None? <==> g == Rejected(500, "Internal server error")
    ensures body.Some? && !WellFormed(body.value)
      <==> g == Rejected(400, "Support message ID and message are required")
    ensures g == Rejected(401, "Unauthorized") <==> body.Some? && WellFormed(body.value) && session.None?
    ensures g == Rejected(404, "User not found")
      <==> body.Some? && WellFormed(body.value) && session.Some? && session.value !in users
    ensures g == Rejected(404, "Support message not found")
      <==> (body.Some? && WellFormed(body.value) && session.Some? && session.value in users
            && !HasTicketId(tickets, body.value.supportMessageId.value))
    ensures g == Rejected(403, "Unauthorized") <==>
      && body.Some? && WellFormed(body.value) && session.Some? && session.value in users
      && HasTicketId(tickets, body.value.supportMessageId.value)
      && !MayReply(users[session.value], FindTicket(tickets, body.value.supportMessageId.value).value)
    ensures g.Rejected? ==> g.status in {400, 401, 403, 404, 500}
    ensures g.Admitted? <==>
      && body.Some? && WellFormed(body.value) && session.Some? && session.value in users
      && HasTicketId(tickets, body.value.supportMessageId.value)
      && MayReply(users[session.value], FindTicket(tickets, body.value.supportMessageId.value).value)
    ensures g.Admitted? ==>
      && g.caller == users[session.value]
      && Some(g.ticket) == FindTicket(tickets, body.value.supportMessageId.value)
      && g.message == body.value.message.value
  {
    if body.None? then Rejected(500, "Internal server error")
    else if !WellFormed(body.value) then Rejected(400, "Support message ID and message are required")
    else if session.None? then Rejected(401, "Unauthorized")
    else if session.value !in users then Rejected(404, "User not found")
    else
      match FindTicket(tickets, body.value.supportMessageId.value)
      case None => Rejected(404, "Support message not found")
      case Some(ticket) =>
        if !MayReply(users[session.value], ticket) then Rejected(403, "Unauthorized")
        else Admitted(users[session.value], ticket, body.value.message.value)
  }

  /** The row inserted into `support_replies`. */
  function NewReply(g: Gate, now: int): (r: Reply)
    requires g.Admitted?
    ensures r.ticketId == g.ticket.id && r.userId == g.caller.id && r.message == g.message
    ensures r.isAdminReply <==> g.caller.role == AdminRole
    ensures r.createdAt == now
  {
    Reply(g.ticket.id, g.caller.id, g.message, g.caller.role == AdminRole, now)
  }

  /** The support-reply email request after an admin reply: to the ticket
      owner, when the owner's user row has an email. */
  function ReplyNotice(g: Gate, users: map<string, User>): (n: Option<Email.SupportReplyOptions>)
    requires g.Admitted?
    ensures n.Some? <==> g.caller.role == AdminRole && g.ticket.userId in users && users[g.ticket.userId].email != ""
    ensures n.Some? ==>
      && n.value.to == users[g.ticket.userId].email
      && n.value.userName == users[g.ticket.userId].fullName
      && n.value.subject == g.ticket.subject
      && n.value.originalMessage == g.ticket.message
      && n.value.replyMessage == g.message
      && n.value.supportLink.None?
  {
    if g.caller.role == AdminRole && g.ticket.userId in users && users[g.ticket.userId].email != "" then
      var owner := users[g.ticket.userId];
      Some(Email.SupportReplyOptions(owner.email, owner.fullName, g.ticket.subject, g.ticket.message, g.message, None))
    else None
  }

  /** A reply that is not an admin reply was written by the ticket's owner. */
  lemma NonAdminReplyIsOwners(body: Option<ReplyBody>, session: Option<string>, users: map<string, User>,
                              tickets: seq<Ticket>, now: int)
    requires KeyedById(users)
    requires ReplyGate(body, session, users, tickets).Admitted?
    ensures var g := ReplyGate(body, session, users, tickets);
      !NewReply(g, now).isAdminReply ==> g.ticket.userId == session.value == NewReply(g, now).userId
  {
  }

  /** The handler. `insertOk` and `statusOk` are the outcomes of the two
      writes; the result carries the inserted reply and, separately, the
      email request sent to the owner. */
  method PostReply(store: Store, body: Option<ReplyBody>, session: Option<string>, now: int,
                   insertOk: bool, statusOk: bool)
    returns (resp: HttpResult<Reply>, notice: Option<Email.SupportReplyOptions>)
    requires store.Valid()
    modifies store
    ensures store.Valid()
    ensures store.users == old(store.users) && store.lastSeen == old(store.lastSeen)
    ensures var g := ReplyGate(body, session, old(store.users), old(store.tickets));
      && (g.Rejected? ==> resp == Fail(g.status, g.error))
      && (g.Admitted? && !insertOk ==> resp == Fail(500, "Failed to create reply"))
      && (g.Admitted? && insertOk ==> resp == Ok(NewReply(g, now)))
    ensures resp.Fail? ==> unchanged(store) && notice.None?
    ensures resp.Ok? ==>
      var g := ReplyGate(body, session, old(store.users), old(store.tickets));
      && store.replies == old(store.replies) + [resp.value]
      && store.tickets == (if g.caller.role == AdminRole && statusOk
                           then SetTicketStatus(old(store.tickets), g.ticket.id, InProgress)
                           else old(store.tickets))
      && notice == ReplyNotice(g, store.users)
  {
    notice := None;
    var g := ReplyGate(body, session, store.users, store.tickets);
    if g.Rejected? {
      resp := Fail(g.status, g.error);
      return;
    }
    if !insertOk {
      resp := Fail(500, "Failed to create reply");
      return;
    }
    var reply := NewReply(g, now);
    store.replies := store.replies + [reply];
    if g.caller.role == AdminRole {
      if statusOk {
        store.tickets := SetTicketStatus(store.tickets, g.ticket.id, InProgress);
      }
      notice := ReplyNotice(g, store.users);
    }
    resp := Ok(reply);
  }
}
