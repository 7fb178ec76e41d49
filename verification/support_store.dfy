/** The support tables of the hosted database, as the support routes see them,
    and the queries they run on them: the ticket lookup, the newest-first
    ordering, the status update, the per-user last-seen upsert and the
    unread-reply count. */
module SupportStore {
  import opened Common
  import opened Records

  /** 1970-01-01T00:00:00Z, the last-seen time of a user without a row. */
  const Epoch := 0

  class Store {
    var users: map<string, User>
    var tickets: seq<Ticket>
    var replies: seq<Reply>
    var lastSeen: seq<LastSeen>

    /** `users` is keyed by the row id; ticket ids are a primary key;
        `support_last_seen` is unique on `user_id`. */
    ghost predicate Valid()
      reads this
    {
      KeyedById(users) && DistinctTicketIds(tickets) && UniqueUsers(lastSeen)
    }

    constructor (users: map<string, User>, tickets: seq<Ticket>, replies: seq<Reply>, lastSeen: seq<LastSeen>)
      requires KeyedById(users) && DistinctTicketIds(tickets) && UniqueUsers(lastSeen)
      ensures Valid()
      ensures this.users == users && this.tickets == tickets
      ensures this.replies == replies && this.lastSeen == lastSeen
    {
      this.users := users;
      this.tickets := tickets;
      this.replies := replies;
      this.lastSeen := lastSeen;
    }
  }

  predicate KeyedById(users: map<string, User>)
  {
    forall k :: k in users ==> users[k].id == k
  }

  predicate DistinctTicketIds(tickets: seq<Ticket>)
  {
    forall i, j :: 0 <= i < j < |tickets| ==> tickets[i].id != tickets[j].id
  }

  predicate UniqueUsers(rows: seq<LastSeen>)
  {
    forall i, j :: 0 <= i < j < |rows| ==> rows[i].userId != rows[j].userId
  }

  predicate HasTicketId(tickets: seq<Ticket>, id: string)
  {
    exists i :: 0 <= i < |tickets| && tickets[i].id == id
  }

  // ---------------------------------------------------------------------------
  // Tickets
  // ---------------------------------------------------------------------------

  /** `.eq('id', id).single()` on `support_messages`. */
  function FindTicket(tickets: seq<Ticket>, id: string): (r: Option<Ticket>)
    ensures r.None? <==> !HasTicketId(tickets, id)
    ensures r.Some? ==> r.value in tickets && r.value.id == id
  {
    if tickets == [] then None
    else if tickets[0].id == id then Some(tickets[0])
    else
      var r := FindTicket(tickets[1..], id);
      assert HasTicketId(tickets, id) ==> HasTicketId(tickets[1..], id) by {
        if HasTicketId(tickets, id) {
          var i :| 0 <= i < |tickets| && tickets[i].id == id;
          assert tickets[1..][i - 1].id == id;
        }
      }
      assert HasTicketId(tickets[1..], id) ==> HasTicketId(tickets, id) by {
        if HasTicketId(tickets[1..], id) {
          var i :| 0 <= i < |tickets[1..]| && tickets[1..][i].id == id;
          assert tickets[i + 1].id == id;
        }
      }
      r
  }

  /** With distinct ids the ticket found is the only one with that id. */
  lemma FindTicketIsTheTicket(tickets: seq<Ticket>, i: nat)
    requires DistinctTicketIds(tickets) && i < |tickets|
    ensures FindTicket(tickets, tickets[i].id) == Some(tickets[i])
  {
    var r := FindTicket(tickets, tickets[i].id);
    var j :| 0 <= j < |tickets| && tickets[j] == r.value;
  }

  /** `.update({ status }).eq('id', id)` on `support_messages`. */
  function SetTicketStatus(tickets: seq<Ticket>, id: string, status: string): (r: seq<Ticket>)
    ensures |r| == |tickets|
    ensures forall i :: 0 <= i < |r| ==>
      r[i] == if tickets[i].id == id then tickets[i].(status := status) else tickets[i]
    ensures DistinctTicketIds(tickets) ==> DistinctTicketIds(r)
  {
    seq(|tickets|, i requires 0 <= i < |tickets| =>
      if tickets[i].id == id then tickets[i].(status := status) else tickets[i])
  }

  /** Newest first: `created_at` never increases along the list. */
  ghost predicate NewestFirstOrder(tickets: seq<Ticket>)
  {
    forall i, j :: 0 <= i < j < |tickets| ==> tickets[i].createdAt >= tickets[j].createdAt
  }

  /** Insert `t` into a newest-first list before the first older-or-equal ticket. */
  function InsertByDate(t: Ticket, sorted: seq<Ticket>): (r: seq<Ticket>)
    ensures multiset(r) == multiset(sorted) + multiset{t}
  {
    if sorted == [] then [t]
    else if t.createdAt >= sorted[0].createdAt then [t] + sorted
    else
      assert sorted == [sorted[0]] + sorted[1..];
      [sorted[0]] + InsertByDate(t, sorted[1..])
  }

  lemma {:induction false} InsertByDateOrdered(t: Ticket, sorted: seq<Ticket>)
    requires NewestFirstOrder(sorted)
    ensures NewestFirstOrder(InsertByDate(t, sorted))
  {
    if sorted != [] && t.createdAt < sorted[0].createdAt {
      var rest := InsertByDate(t, sorted[1..]);
      InsertByDateOrdered(t, sorted[1..]);
      forall e | e in rest
        ensures e.createdAt <= sorted[0].createdAt
      {
        assert e in multiset(rest);
        if e != t {
          assert e in sorted[1..];
        }
      }
      var r := [sorted[0]] + rest;
      forall i, j | 0 <= i < j < |r|
        ensures r[i].createdAt >= r[j].createdAt
      {
        if i > 0 {
          assert r[i] == rest[i - 1] && r[j] == rest[j - 1];
        } else {
          assert r[j] in rest;
        }
      }
    }
  }

  /** `.order('created_at', { ascending: false })`. */
  function NewestFirst(tickets: seq<Ticket>): (r: seq<Ticket>)
    ensures multiset(r) == multiset(tickets)
    ensures NewestFirstOrder(r)
  {
    if tickets == [] then []
    else
      assert tickets == [tickets[0]] + tickets[1..];
      InsertByDateOrdered(tickets[0], NewestFirst(tickets[1..]));
      InsertByDate(tickets[0], NewestFirst(tickets[1..]))
  }

  // ---------------------------------------------------------------------------
  // Last seen and unread count
  // ---------------------------------------------------------------------------

  /** `last_seen_at` of the user's row, or the epoch when there is none. */
  function LastSeenOf(rows: seq<LastSeen>, user: string): (t: int)
    ensures (forall i :: 0 <= i < |rows| ==> rows[i].userId != user) ==> t == Epoch
  {
    if rows == [] then Epoch
    else if rows[0].userId == user then rows[0].lastSeenAt
    else LastSeenOf(rows[1..], user)
  }

  /** `upsert({ user_id, last_seen_at }, { onConflict: 'user_id' })`. */
  function Upsert(rows: seq<LastSeen>, user: string, at: int): (r: seq<LastSeen>)
    ensures forall e :: e in r ==> e == LastSeen(user, at) || e in rows
    ensures UniqueUsers(rows) ==> UniqueUsers(r)
    ensures LastSeenOf(r, user) == at
    ensures forall u :: u != user ==> LastSeenOf(r, u) == LastSeenOf(rows, u)
  {
    if rows == [] then [LastSeen(user, at)]
    else if rows[0].userId == user then
      var r := [LastSeen(user, at)] + rows[1..];
      assert UniqueUsers(rows) ==> UniqueUsers(r) by {
        if UniqueUsers(rows) {
          forall i, j | 0 <= i < j < |r|
            ensures r[i].userId != r[j].userId
          {
            assert r[j] == rows[j];
            if i > 0 {
              assert r[i] == rows[i];
            }
          }
        }
      }
      r
    else
      var rest := Upsert(rows[1..], user, at);
      var r := [rows[0]] + rest;
      assert UniqueUsers(rows) ==> UniqueUsers(r) by {
        if UniqueUsers(rows) {
          forall i, j | 0 <= i < j < |r|
            ensures r[i].userId != r[j].userId
          {
            if i == 0 {
              assert r[j] in rest;
              if r[j] != LastSeen(user, at) {
                var k :| 0 <= k < |rows[1..]| && rows[1..][k] == r[j];
                assert rows[k + 1] == r[j];
              }
            } else {
              assert r[i] == rest[i - 1] && r[j] == rest[j - 1];
            }
          }
        }
      }
      r
  }

  /** Replies on any ticket created at or after `since` by someone other than `caller`. */
  function UnreadCount(replies: seq<Reply>, caller: string, since: int): (n: nat)
    ensures n <= |replies|
  {
    if replies == [] then 0
    else
      (if replies[0].createdAt >= since && replies[0].userId != caller then 1 else 0)
      + UnreadCount(replies[1..], caller, since)
  }

  lemma {:induction false} UnreadCountAppend(a: seq<Reply>, b: seq<Reply>, caller: string, since: int)
    ensures UnreadCount(a + b, caller, since) == UnreadCount(a, caller, since) + UnreadCount(b, caller, since)
  {
    if a == [] {
      assert a + b == b;
    } else {
      assert (a + b)[1..] == a[1..] + b;
      UnreadCountAppend(a[1..], b, caller, since);
    }
  }

  /** A new reply adds one to the count exactly when someone else wrote it at
      or after `since`: the caller's own replies never count, the bound is inclusive. */
  lemma NewReplyUnread(replies: seq<Reply>, r: Reply, caller: string, since: int)
    ensures UnreadCount(replies + [r], caller, since)
      == UnreadCount(replies, caller, since) + (if r.createdAt >= since && r.userId != caller then 1 else 0)
  {
    UnreadCountAppend(replies, [r], caller, since);
  }

  /** Replies older than `since` never count. */
  lemma {:induction false} UnreadCountOlderIsZero(replies: seq<Reply>, caller: string, since: int)
    requires forall i :: 0 <= i < |replies| ==> replies[i].createdAt < since
    ensures UnreadCount(replies, caller, since) == 0
  {
    if replies != [] {
      UnreadCountOlderIsZero(replies[1..], caller, since);
    }
  }

  /** A later last-seen time never counts more replies. */
  lemma {:induction false} UnreadCountAntitone(replies: seq<Reply>, caller: string, earlier: int, later: int)
    requires earlier <= later
    ensures UnreadCount(replies, caller, later) <= UnreadCount(replies, caller, earlier)
  {
    if replies != [] {
      UnreadCountAntitone(replies[1..], caller, earlier, later);
    }
  }
}
