/** `/api/support-unread`: GET counts the replies the caller has not seen,
    POST records that the caller has seen them all now. */
module SupportUnread {
  import opened Common
  import opened Records
  import opened SupportStore
  import SupportReplies

  /** The outcome of the count query: an error, a null count, or the exact
      count of the matching rows. */
  datatype CountQuery = QueryError | NullCount | Counted

  /** The time replies are counted from: the caller's last-seen row, or the
      epoch when there is none or it cannot be read. */
  function Since(rows: seq<LastSeen>, user: string, lastSeenReadOk: bool): (t: int)
    ensures !lastSeenReadOk ==> t == Epoch
    ensures lastSeenReadOk ==> t == LastSeenOf(rows, user)
  {
    if lastSeenReadOk then LastSeenOf(rows, user) else Epoch
  }

  /** GET. Only reads the store. */
  method GetUnread(store: Store, session: Option<string>, lastSeenReadOk: bool, query: CountQuery)
    returns (resp: HttpResult<nat>)
    ensures session.None? ==> resp == Fail(401, "Unauthorized")
    ensures session.Some? && query == QueryError ==> resp == Fail(500, "Failed to fetch unread count")
    ensures session.Some? && query == NullCount ==> resp == Ok(0)
    ensures session.Some? && query == Counted ==>
      resp == Ok(UnreadCount(store.replies, session.value, Since(store.lastSeen, session.value, lastSeenReadOk)))
  {
    if session.None? {
      return Fail(401, "Unauthorized");
    }
    var user := session.value;
    var since := if lastSeenReadOk then LastSeenOf(store.lastSeen, user) else Epoch;
    match query {
      case QueryError =>
        resp := Fail(500, "Failed to fetch unread count");
      case NullCount =>
        resp := Ok(0);
      case Counted =>
        resp := Ok(UnreadCount(store.replies, user, since));
    }
  }

  /** POST. `now` is the server clock and `upsertOk` the outcome of the upsert. */
  method MarkSeen(store: Store, session: Option<string>, now: int, upsertOk: bool)
    returns (resp: HttpResult<int>)
    requires store.Valid()
    modifies store
    ensures store.Valid()
    ensures session.None? ==> resp == Fail(401, "Unauthorized")
    ensures session.Some? && !upsertOk ==> resp == Fail(500, "Failed to update last seen")
    ensures session.Some? && upsertOk ==> resp == Ok(now)
    ensures resp.Fail? ==> unchanged(store)
    ensures resp.Ok? ==> store.lastSeen == Upsert(old(store.lastSeen), session.value, now)
    ensures store.users == old(store.users) && store.tickets == old(store.tickets)
    ensures store.replies == old(store.replies)
  {
    if session.None? {
      return Fail(401, "Unauthorized");
    }
    if !upsertOk {
      return Fail(500, "Failed to update last seen");
    }
    store.lastSeen := Upsert(store.lastSeen, session.value, now);
    resp := Ok(now);
  }

  /** After marking seen at `now`, replies older than `now` no longer count
      for the caller, a reply by someone else at `now` itself still does, and
      every other user's count is as before. */
  lemma MarkSeenClearsUnread(rows: seq<LastSeen>, replies: seq<Reply>, user: string, now: int, r: Reply)
    requires forall i :: 0 <= i < |replies| ==> replies[i].createdAt < now
    requires r.createdAt == now && r.userId != user
    ensures UnreadCount(replies, user, LastSeenOf(Upsert(rows, user, now), user)) == 0
    ensures UnreadCount(replies + [r], user, LastSeenOf(Upsert(rows, user, now), user)) == 1
    ensures forall u :: u != user ==> LastSeenOf(Upsert(rows, user, now), u) == LastSeenOf(rows, u)
  {
    UnreadCountOlderIsZero(replies, user, now);
    NewReplyUnread(replies, r, user, now);
  }

  /** An accepted reply never adds to its author's own unread count, and an
      admin reply adds one to the ticket owner's count when it is no older
      than the owner's last visit. */
  lemma ReplyUnreadFor(store: Store, body: Option<SupportReplies.ReplyBody>, session: Option<string>, now: int)
    requires store.Valid()
    requires SupportReplies.ReplyGate(body, session, store.users, store.tickets).Admitted?
    ensures var g := SupportReplies.ReplyGate(body, session, store.users, store.tickets);
      var reply := SupportReplies.NewReply(g, now);
      var since := LastSeenOf(store.lastSeen, session.value);
      && UnreadCount(store.replies + [reply], session.value, since) == UnreadCount(store.replies, session.value, since)
      && (reply.isAdminReply && g.ticket.userId != session.value && now >= LastSeenOf(store.lastSeen, g.ticket.userId)
          ==> var ownerSince := LastSeenOf(store.lastSeen, g.ticket.userId);
              UnreadCount(store.replies + [reply], g.ticket.userId, ownerSince)
                == UnreadCount(store.replies, g.ticket.userId, ownerSince) + 1)
  {
    var g := SupportReplies.ReplyGate(body, session, store.users, store.tickets);
    var reply := SupportReplies.NewReply(g, now);
    NewReplyUnread(store.replies, reply, session.value, LastSeenOf(store.lastSeen, session.value));
    NewReplyUnread(store.replies, reply, g.ticket.userId, LastSeenOf(store.lastSeen, g.ticket.userId));
  }
}
