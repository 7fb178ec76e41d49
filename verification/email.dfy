/** The string helpers of the notification service: HTML escaping, the status
    colour and label of the status-update email, the guard that decides whether
    a status-update email is built, and the subject, greeting and link defaults
    of the three emails. The HTML around these fields is not modelled: each email
    is reduced to its recipient, its subject and the values it inserts into
    the HTML. */
module Email {
  import opened Common
  import opened Records

  // ---------------------------------------------------------------------------
  // escapeHtml
  // ---------------------------------------------------------------------------

  /** `s.replace(/c/g, rep)`: every occurrence of `c` becomes `rep`. */
  function ReplaceAll(s: string, c: char, rep: string): (r: string)
    ensures c !in rep ==> c !in r
    ensures forall x :: x !in s && x !in rep ==> x !in r
  {
    if s == [] then []
    else (if s[0] == c then rep else [s[0]]) + ReplaceAll(s[1..], c, rep)
  }

  /** The five chained replacements of `escapeHtml`, `&` first. */
  function EscapeHtml(s: string): (r: string)
    ensures '<' !in r && '>' !in r && '"' !in r && '\'' !in r
  {
    var amp := ReplaceAll(s, '&', "&amp;");
    var lt := ReplaceAll(amp, '<', "&lt;");
    var gt := ReplaceAll(lt, '>', "&gt;");
    var quot := ReplaceAll(gt, '"', "&quot;");
    ReplaceAll(quot, '\'', "&#039;")
  }

  predicate IsSpecial(c: char)
  {
    c == '&' || c == '<' || c == '>' || c == '"' || c == '\''
  }

  /** What one input character becomes in the escaped text. */
  function Entity(c: char): (e: string)
    ensures |e| >= 1 && e[0] == (if IsSpecial(c) then '&' else c)
    ensures IsSpecial(c) <==> |e| > 1
  {
    match c
    case '&' => "&amp;"
    case '<' => "&lt;"
    case '>' => "&gt;"
    case '"' => "&quot;"
    case '\'' => "&#039;"
    case _ => [c]
  }

  /** The reference definition: escape character by character. */
  function EscapeEach(s: string): string
  {
    if s == [] then [] else Entity(s[0]) + EscapeEach(s[1..])
  }

  /** The decoder of the five entities, a left inverse of escaping. */
  function Unescape(t: string): string
    decreases |t|
  {
    if t == [] then []
    else if "&amp;" <= t then "&" + Unescape(t[5..])
    else if "&lt;" <= t then "<" + Unescape(t[4..])
    else if "&gt;" <= t then ">" + Unescape(t[4..])
    else if "&quot;" <= t then "\"" + Unescape(t[6..])
    else if "&#039;" <= t then "'" + Unescape(t[6..])
    else [t[0]] + Unescape(t[1..])
  }

  lemma {:induction false} ReplaceAllAppend(a: string, b: string, c: char, rep: string)
    ensures ReplaceAll(a + b, c, rep) == ReplaceAll(a, c, rep) + ReplaceAll(b, c, rep)
  {
    if a == [] {
      assert a + b == b;
    } else {
      assert (a + b)[1..] == a[1..] + b;
      ReplaceAllAppend(a[1..], b, c, rep);
    }
  }

  lemma {:induction false} ReplaceAllAbsent(s: string, c: char, rep: string)
    requires c !in s
    ensures ReplaceAll(s, c, rep) == s
  {
    if s != [] {
      ReplaceAllAbsent(s[1..], c, rep);
    }
  }

  lemma ReplaceAllSingle(x: char, c: char, rep: string)
    ensures ReplaceAll([x], c, rep) == if x == c then rep else [x]
  {
    assert [x][1..] == [];
  }

  /** The five-step chain applied to a single character gives its entity. */
  lemma EscapeOneCharacter(c: char)
    ensures EscapeHtml([c]) == Entity(c)
  {
    var e := Entity(c);
    ReplaceAllSingle(c, '&', "&amp;");
    assert ReplaceAll([c], '&', "&amp;") == if c == '&' then e else [c];
    if c == '&' {
      AbsentAfter(e, '<', '>', '"', '\'');
    } else if c == '<' {
      ReplaceAllSingle(c, '<', "&lt;");
      AbsentAfter(e, '>', '>', '"', '\'');
    } else if c == '>' {
      ReplaceAllAbsent([c], '<', "&lt;");
      ReplaceAllSingle(c, '>', "&gt;");
      AbsentAfter(e, '"', '"', '"', '\'');
    } else if c == '"' {
      ReplaceAllAbsent([c], '<', "&lt;");
      ReplaceAllAbsent([c], '>', "&gt;");
      ReplaceAllSingle(c, '"', "&quot;");
      ReplaceAllAbsent(e, '\'', "&#039;");
    } else if c == '\'' {
      ReplaceAllAbsent([c], '<', "&lt;");
      ReplaceAllAbsent([c], '>', "&gt;");
      ReplaceAllAbsent([c], '"', "&quot;");
      ReplaceAllSingle(c, '\'', "&#039;");
    } else {
      AbsentAfter(e, '<', '>', '"', '\'');
    }
  }

  /** The later steps of the chain leave `s` alone when it has none of their characters. */
  lemma AbsentAfter(s: string, c1: char, c2: char, c3: char, c4: char)
    requires c1 !in s && c2 !in s && c3 !in s && c4 !in s
    ensures ReplaceAll(s, c1, Entity(c1)) == s
    ensures ReplaceAll(s, c2, Entity(c2)) == s
    ensures ReplaceAll(s, c3, Entity(c3)) == s
    ensures ReplaceAll(s, c4, Entity(c4)) == s
  {
    ReplaceAllAbsent(s, c1, Entity(c1));
    ReplaceAllAbsent(s, c2, Entity(c2));
    ReplaceAllAbsent(s, c3, Entity(c3));
    ReplaceAllAbsent(s, c4, Entity(c4));
  }

  /** Because `&` is replaced first, the entities produced by later steps are
      never escaped again: the chain escapes each character independently. */
  lemma {:induction false} EscapeHtmlIsPerCharacter(s: string)
    ensures EscapeHtml(s) == EscapeEach(s)
  {
    if s != [] {
      var c, t := s[0], s[1..];
      assert s == [c] + t;
      var a1 := ReplaceAll([c], '&', "&amp;");
      var b1 := ReplaceAll(t, '&', "&amp;");
      ReplaceAllAppend([c], t, '&', "&amp;");
      var a2 := ReplaceAll(a1, '<', "&lt;");
      var b2 := ReplaceAll(b1, '<', "&lt;");
      ReplaceAllAppend(a1, b1, '<', "&lt;");
      var a3 := ReplaceAll(a2, '>', "&gt;");
      var b3 := ReplaceAll(b2, '>', "&gt;");
      ReplaceAllAppend(a2, b2, '>', "&gt;");
      var a4 := ReplaceAll(a3, '"', "&quot;");
      var b4 := ReplaceAll(b3, '"', "&quot;");
      ReplaceAllAppend(a3, b3, '"', "&quot;");
      ReplaceAllAppend(a4, b4, '\'', "&#039;");
      assert EscapeHtml(s) == EscapeHtml([c]) + EscapeHtml(t);
      EscapeOneCharacter(c);
      EscapeHtmlIsPerCharacter(t);
    }
  }

  /** Output length: `&` adds 4 characters, `<` and `>` add 3, `"` and `'` add 5. */
  lemma {:induction false} EscapeHtmlLength(s: string)
    ensures |EscapeHtml(s)| == |s| + 4 * multiset(s)['&'] + 3 * multiset(s)['<']
      + 3 * multiset(s)['>'] + 5 * multiset(s)['"'] + 5 * multiset(s)['\'']
  {
    EscapeHtmlIsPerCharacter(s);
    EscapeEachLength(s);
  }

  lemma {:induction false} EscapeEachLength(s: string)
    ensures |EscapeEach(s)| == |s| + 4 * multiset(s)['&'] + 3 * multiset(s)['<']
      + 3 * multiset(s)['>'] + 5 * multiset(s)['"'] + 5 * multiset(s)['\'']
  {
    if s != [] {
      var c, t := s[0], s[1..];
      assert s == [c] + t;
      assert multiset(s) == multiset{c} + multiset(t);
      EscapeEachLength(t);
      assert |EscapeEach(s)| == |Entity(c)| + |EscapeEach(t)|;
      if c == '&' {
        assert |Entity(c)| == 5;
      } else if c == '<' || c == '>' {
        assert |Entity(c)| == 4;
      } else if c == '"' || c == '\'' {
        assert |Entity(c)| == 6;
      } else {
        assert |Entity(c)| == 1;
      }
    }
  }

  /** A string without any of the five special characters is returned unchanged. */
  lemma {:induction false} EscapeHtmlSafeIdentity(s: string)
    requires forall i :: 0 <= i < |s| ==> !IsSpecial(s[i])
    ensures EscapeHtml(s) == s
  {
    ReplaceAllAbsent(s, '&', "&amp;");
    ReplaceAllAbsent(s, '<', "&lt;");
    ReplaceAllAbsent(s, '>', "&gt;");
    ReplaceAllAbsent(s, '"', "&quot;");
    ReplaceAllAbsent(s, '\'', "&#039;");
  }

  lemma UnescapeEntity(c: char, rest: string)
    ensures Unescape(Entity(c) + rest) == [c] + Unescape(rest)
  {
    var t := Entity(c) + rest;
    if IsSpecial(c) {
      match c
      case '&' => assert "&amp;" <= t && t[5..] == rest;
      case '<' =>
        assert t[1] == 'l';
        assert "&lt;" <= t && t[4..] == rest;
      case '>' =>
        assert t[1] == 'g';
        assert "&gt;" <= t && t[4..] == rest;
      case '"' =>
        assert t[1] == 'q';
        assert "&quot;" <= t && t[6..] == rest;
      case '\'' =>
        assert t[1] == '#';
        assert "&#039;" <= t && t[6..] == rest;
    } else {
      assert t[0] == c && t[1..] == rest;
    }
  }

  /** Escaping is lossless: decoding the five entities once gives the input
      back, so each `&` became exactly one `&amp;` and no entity was escaped twice. */
  lemma {:induction false} UnescapeEscapeHtml(s: string)
    ensures Unescape(EscapeHtml(s)) == s
  {
    EscapeHtmlIsPerCharacter(s);
    UnescapeEscapeEach(s);
  }

  lemma {:induction false} UnescapeEscapeEach(s: string)
    ensures Unescape(EscapeEach(s)) == s
  {
    if s != [] {
      UnescapeEntity(s[0], EscapeEach(s[1..]));
      UnescapeEscapeEach(s[1..]);
    }
  }

  // ---------------------------------------------------------------------------
  // Status colour and label of the status-update email
  // ---------------------------------------------------------------------------

  const StatusColors: map<string, string> := map[
    "pending" := "#fbbf24",
    "in_transit" := "#3b82f6",
    "out_for_delivery" := "#f97316",
    "delivered" := "#10b981",
    "exception" := "#ef4444"]

  const DefaultStatusColor := "#6b7280"

  /** `statusColors[status] || '#6b7280'`. */
  function StatusColor(status: string): (color: string)
    ensures color == DefaultStatusColor <==> status !in StatusColors
    ensures status in StatusColors ==> color == StatusColors[status]
    ensures color in StatusColors.Values + {DefaultStatusColor}
  {
    if status in StatusColors then StatusColors[status] else DefaultStatusColor
  }

  /** `s.replace(c, d)` with a string pattern: only the first `c` becomes `d`. */
  function ReplaceFirst(s: string, c: char, d: char): string
  {
    if s == [] then []
    else if s[0] == c then [d] + s[1..]
    else [s[0]] + ReplaceFirst(s[1..], c, d)
  }

  /** `status.replace('_', ' ').toUpperCase()`. */
  function StatusLabel(status: string): string
  {
    Upper(ReplaceFirst(status, '_', ' '))
  }

  lemma {:induction false} ReplaceFirstAbsent(s: string, c: char, d: char)
    requires c !in s
    ensures ReplaceFirst(s, c, d) == s
  {
    if s != [] {
      ReplaceFirstAbsent(s[1..], c, d);
    }
  }

  lemma {:induction false} ReplaceFirstAt(s: string, c: char, d: char, i: nat)
    requires i < |s| && s[i] == c && c !in s[..i]
    ensures ReplaceFirst(s, c, d) == s[..i] + [d] + s[i + 1..]
  {
    if i > 0 {
      assert s[0] == s[..i][0];
      assert s[1..][..i - 1] == s[1..i];
      assert c !in s[1..i] by { assert forall x :: x in s[1..i] ==> x in s[..i]; }
      ReplaceFirstAt(s[1..], c, d, i - 1);
      assert s[..i] == [s[0]] + s[1..i];
    }
  }

  /** Without `_` the label is the upper-cased status; otherwise the first `_`
      becomes a space and everything after it, later `_` included, is only
      upper-cased. */
  lemma StatusLabelSpec(status: string)
    ensures '_' !in status ==> StatusLabel(status) == Upper(status)
    ensures forall i :: 0 <= i < |status| && status[i] == '_' && '_' !in status[..i] ==>
      StatusLabel(status) == Upper(status[..i]) + " " + Upper(status[i + 1..])
  {
    if '_' !in status {
      ReplaceFirstAbsent(status, '_', ' ');
    }
    forall i | 0 <= i < |status| && status[i] == '_' && '_' !in status[..i]
      ensures StatusLabel(status) == Upper(status[..i]) + " " + Upper(status[i + 1..])
    {
      ReplaceFirstAt(status, '_', ' ', i);
    }
  }

  /** Only the first underscore of `out_for_delivery` becomes a space. */
  lemma OutForDeliverySpaced()
    ensures ReplaceFirst("out_for_delivery", '_', ' ') == "out for_delivery"
  {
    var s := "out_for_delivery";
    assert s[..3] == "out" && s[4..] == "for_delivery";
    ReplaceFirstAt(s, '_', ' ', 3);
  }

  lemma UpperOutForDelivery()
    ensures Upper("out for_delivery") == "OUT FOR_DELIVERY"
  {
    var spaced := "out for_delivery";
    forall i | 0 <= i < |spaced| ensures Upper(spaced)[i] == "OUT FOR_DELIVERY"[i] {
      assert Upper(spaced)[i] == UpperChar(spaced[i]);
    }
  }

  /** The label of `out_for_delivery` keeps its second underscore. */
  lemma OutForDeliveryLabel()
    ensures StatusLabel("out_for_delivery") == "OUT FOR_DELIVERY"
  {
    OutForDeliverySpaced();
    UpperOutForDelivery();
  }

  // ---------------------------------------------------------------------------
  // Emails: guard and defaults
  // ---------------------------------------------------------------------------

  datatype StatusChange = StatusChange(oldStatus: string, newStatus: string, location: string, description: string)

  /** The argument of both shipment notifications. */
  datatype ShipmentNotification = ShipmentNotification(user: User, shipment: Shipment, statusChange: Option<StatusChange>)

  /** The dynamic fields of the status-update email. */
  datatype StatusUpdateView = StatusUpdateView(
    greetingName: string,
    trackingNumber: string,
    statusText: string,
    statusColor: string,
    previousStatusText: string,
    location: string,
    details: Option<string>,
    trackingLink: string)

  datatype StatusUpdateEmail = StatusUpdateEmail(to: string, subject: string, view: StatusUpdateView)

  /** The dynamic fields of the shipment-created email: the greeting, the
      shipment card (tracking number, status badge, description, current
      location, weight, dimensions, route, delivery date) and the link. */
  datatype CreatedView = CreatedView(
    greetingName: string,
    trackingNumber: string,
    statusBadge: string,
    description: Option<string>,
    currentLocation: string,
    weightText: string,
    dimensionsText: string,
    origin: string,
    destination: string,
    estimatedDelivery: Option<string>,
    trackingLink: string)

  datatype CreatedEmail = CreatedEmail(to: string, subject: string, view: CreatedView)

  const LocalAppUrl := "http://localhost:3000"

  /** `user.full_name || user.email`. */
  function GreetingName(user: User): (name: string)
    ensures Present(user.fullName) ==> name == user.fullName.value
    ensures !Present(user.fullName) ==> name == user.email
  {
    OrElse(user.fullName, user.email)
  }

  /** The email of `sendShipmentCreatedNotification`; an absent estimated
      delivery date is shown as "To be determined" (None here). */
  function ShipmentCreatedEmail(user: User, shipment: Shipment, appUrl: Option<string>): (m: CreatedEmail)
    ensures m.to == user.email
    ensures m.subject == "Your Shipment " + shipment.trackingNumber + " Has Been Created - QuickVessel"
    ensures m.view.greetingName == GreetingName(user) && m.view.trackingNumber == shipment.trackingNumber
    ensures m.view.statusBadge == StatusLabel(shipment.status)
    ensures m.view.description == shipment.description && m.view.currentLocation == shipment.currentLocation
    ensures Present(shipment.weight) ==> m.view.weightText == shipment.weight.value + " kg"
    ensures !Present(shipment.weight) ==> m.view.weightText == "N/A"
    ensures Present(shipment.dimensions) ==> m.view.dimensionsText == shipment.dimensions.value
    ensures !Present(shipment.dimensions) ==> m.view.dimensionsText == "N/A"
    ensures m.view.origin == shipment.origin && m.view.destination == shipment.destination
    ensures m.view.estimatedDelivery.Some? <==> Present(shipment.estimatedDelivery)
    ensures m.view.trackingLink == OrElse(appUrl, LocalAppUrl) + "/app"
  {
    CreatedEmail(
      user.email,
      "Your Shipment " + shipment.trackingNumber + " Has Been Created - QuickVessel",
      CreatedView(
        GreetingName(user),
        shipment.trackingNumber,
        StatusLabel(shipment.status),
        shipment.description,
        shipment.currentLocation,
        if Present(shipment.weight) then shipment.weight.value + " kg" else "N/A",
        OrElse(shipment.dimensions, "N/A"),
        shipment.origin,
        shipment.destination,
        if Present(shipment.estimatedDelivery) then shipment.estimatedDelivery else None,
        OrElse(appUrl, LocalAppUrl) + "/app"))
  }

  /** The email `sendStatusUpdateNotification` builds: none without a status change. */
  function StatusUpdateNotification(data: ShipmentNotification, appUrl: Option<string>): (m: Option<StatusUpdateEmail>)
    ensures m.None? <==> data.statusChange.None?
    ensures m.Some? ==> (
      && m.value.to == data.user.email
      && m.value.subject == "Shipment " + data.shipment.trackingNumber + " Status Update - QuickVessel"
      && m.value.view.statusText == StatusLabel(data.statusChange.value.newStatus)
      && m.value.view.statusColor == StatusColor(data.statusChange.value.newStatus)
      && m.value.view.previousStatusText == StatusLabel(data.statusChange.value.oldStatus)
      && m.value.view.greetingName == GreetingName(data.user)
      && m.value.view.location == data.statusChange.value.location
      && (m.value.view.details.Some? <==> data.statusChange.value.description != "")
      && m.value.view.trackingLink == OrElse(appUrl, LocalAppUrl) + "/app")
  {
    match data.statusChange
    case None => None
    case Some(change) =>
      Some(StatusUpdateEmail(
        data.user.email,
        "Shipment " + data.shipment.trackingNumber + " Status Update - QuickVessel",
        StatusUpdateView(
          GreetingName(data.user),
          data.shipment.trackingNumber,
          StatusLabel(change.newStatus),
          StatusColor(change.newStatus),
          StatusLabel(change.oldStatus),
          change.location,
          if change.description != "" then Some(change.description) else None,
          OrElse(appUrl, LocalAppUrl) + "/app")))
  }

  /** `sendStatusUpdateNotification`: false without a status change (nothing is
      sent), otherwise the transport's verdict. */
  function SendStatusUpdateNotification(data: ShipmentNotification, transportOk: bool): (sent: bool)
    ensures data.statusChange.None? ==> !sent
    ensures sent <==> data.statusChange.Some? && transportOk
  {
    match StatusUpdateNotification(data, None)
    case None => false
    case Some(_) => transportOk
  }

  /** The options of `sendSupportReplyNotification`. */
  datatype SupportReplyOptions = SupportReplyOptions(
    to: string,
    userName: Option<string>,
    subject: string,
    originalMessage: string,
    replyMessage: string,
    supportLink: Option<string>)

  /** The dynamic fields of the support-reply email, as inserted into the HTML;
      `greetingName` is the text after "Hi" (none when no user name is given). */
  datatype SupportReplyView = SupportReplyView(
    subjectHtml: string,
    greetingName: Option<string>,
    originalHtml: string,
    replyHtml: string,
    link: string)

  datatype SupportReplyEmail = SupportReplyEmail(to: string, subject: string, view: SupportReplyView)

  predicate NoMarkup(s: string)
  {
    '<' !in s && '>' !in s && '"' !in s && '\'' !in s
  }

  /** The email of `sendSupportReplyNotification`. */
  function SupportReplyNotification(opts: SupportReplyOptions, appUrl: Option<string>): (m: SupportReplyEmail)
    ensures m.to == opts.to
    ensures m.subject == "Support reply: " + opts.subject
    ensures m.view.subjectHtml == EscapeHtml(opts.subject)
    ensures m.view.originalHtml == EscapeHtml(opts.originalMessage)
    ensures m.view.replyHtml == EscapeHtml(opts.replyMessage)
    ensures m.view.greetingName.Some? <==> Present(opts.userName)
    ensures m.view.greetingName.Some? ==> m.view.greetingName.value == EscapeHtml(opts.userName.value)
    ensures Present(opts.supportLink) ==> m.view.link == opts.supportLink.value
    ensures !Present(opts.supportLink) ==> m.view.link == OrElse(appUrl, "") + "/support"
  {
    var link := OrElse(opts.supportLink, OrElse(appUrl, "") + "/support");
    var name := if Present(opts.userName) then Some(EscapeHtml(opts.userName.value)) else None;
    SupportReplyEmail(
      opts.to,
      "Support reply: " + opts.subject,
      SupportReplyView(EscapeHtml(opts.subject), name, EscapeHtml(opts.originalMessage),
        EscapeHtml(opts.replyMessage), link))
  }

  /** Every user-supplied text the support-reply email places in its HTML body
      is free of `<`, `>`, `"` and `'`, and decodes back to what was supplied. */
  lemma SupportReplyBodyIsEscaped(opts: SupportReplyOptions, appUrl: Option<string>)
    ensures var v := SupportReplyNotification(opts, appUrl).view;
      && NoMarkup(v.subjectHtml) && Unescape(v.subjectHtml) == opts.subject
      && NoMarkup(v.originalHtml) && Unescape(v.originalHtml) == opts.originalMessage
      && NoMarkup(v.replyHtml) && Unescape(v.replyHtml) == opts.replyMessage
      && (v.greetingName.Some? ==> NoMarkup(v.greetingName.value) && Unescape(v.greetingName.value) == opts.userName.value)
  {
    UnescapeEscapeHtml(opts.subject);
    UnescapeEscapeHtml(opts.originalMessage);
    UnescapeEscapeHtml(opts.replyMessage);
    if Present(opts.userName) {
      UnescapeEscapeHtml(opts.userName.value);
    }
  }
}
