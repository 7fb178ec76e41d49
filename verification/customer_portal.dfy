/** The support-unread badge of the customer portal (`/app`): the count read
    on load, the badge it shows, and the reset when the support link is
    clicked. The shipment list of the page is in `ShipmentList`. */
module CustomerPortal {
  import opened Common
  import opened Records
  import opened SupportStore
  import SupportUnread

  /** What the portal gets from `fetch('/api/support-unread')`: the request
      failed outright, or some JSON body whose `unread` field may be absent. */
  datatype UnreadFetch = FetchFailed | Fetched(unread: Option<int>)

  /** The JSON body of a GET response: `{ unread }` on success, an error
      object without `unread` otherwise. */
  function UnreadJson(resp: HttpResult<nat>): (f: UnreadFetch)
    ensures f.Fetched?
    ensures f.unread.Some? <==> resp.Ok?
    ensures resp.Ok? ==> f.unread.value == resp.value
  {
    match resp
    case Ok(n) => Fetched(Some(n))
    case Fail(_, _) => Fetched(None)
  }

  /** `data.unread || 0`, or 0 when the fetch fails: the server's count when
      it gave one, 0 otherwise. */
  function InitialUnread(f: UnreadFetch): (n: int)
    ensures f.FetchFailed? || f.unread.None? ==> n == 0
    ensures f.Fetched? && f.unread.Some? ==> n == f.unread.value
  {
    match f
    case FetchFailed => 0
    case Fetched(None) => 0
    case Fetched(Some(u)) => u
  }

  /** The badge on the support link: hidden at zero, the count itself up to
      nine, `9+` above. */
  function UnreadBadge(count: int): (badge: Option<string>)
    ensures badge.None? <==> count <= 0
    ensures 0 < count <= 9 ==> |badge.value| == 1 && badge.value[0] as int - '0' as int == count
    ensures count > 9 ==> badge == Some("9+")
  {
    if count <= 0 then None
    else if count > 9 then Some("9+")
    else Some([('0' as int + count) as char])
  }

  /** The outcome of `fetch('/api/support-unread', { method: 'POST' })`. */
  datatype MarkSeenFetch = NetworkError | Responded(status: int)

  /** The local count after a click on the support link: any response, even
      an error status, resets it to 0; only a failed request keeps it. */
  function UnreadAfterClick(count: int, post: MarkSeenFetch): (n: int)
    ensures post.Responded? ==> n == 0
    ensures post.NetworkError? ==> n == count
  {
    match post
    case NetworkError => count
    case Responded(_) => 0
  }

  /** On load the badge shows the server's unread count: nothing when the
      route rejects the request or counts zero, and a badge otherwise. */
  lemma LoadedBadge(resp: HttpResult<nat>)
    ensures UnreadBadge(InitialUnread(UnreadJson(resp))).None? <==> resp.Fail? || resp.value == 0
  {
  }

  /** After a recorded visit at `now`, the next load shows no badge unless
      someone else replied at or after `now`. */
  lemma NoBadgeAfterRecordedVisit(rows: seq<LastSeen>, replies: seq<Reply>, user: string, now: int)
    requires forall i :: 0 <= i < |replies| ==> replies[i].createdAt < now
    ensures var since := SupportUnread.Since(Upsert(rows, user, now), user, true);
      UnreadBadge(InitialUnread(UnreadJson(Ok(UnreadCount(replies, user, since))))).None?
  {
    UnreadCountOlderIsZero(replies, user, now);
  }
}
