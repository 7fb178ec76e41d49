# QuickVessel core logic in Dafny

QuickVessel is a shipment-tracking web application. Customers follow their
shipments in a portal. Admins create shipments and record status changes.
Both sides exchange support tickets and replies, and status changes trigger
email notifications. This project models the parts of the application that
make decisions, rather than just display data:

- **Email helpers** (`Email`): HTML escaping, the status colour and label,
  the guard of the status-update notification, and the subject, greeting
  and link defaults of the three emails.
- **Shipment lists** (`ShipmentList`): the search and status filter and the
  per-status statistics, which the admin dashboard and the customer portal
  share. Also the expand/collapse toggles.
- **Admin dashboard** (`AdminDashboard`): the `AdminPage` class over an
  in-memory `ShipmentTables` object. It models the row written by "add
  shipment" and the two-step status update: the shipment row first, then a
  tracking event.
- **Customer portal** (`CustomerPortal`): the support-unread badge, its
  value on load and its reset on click.
- **Sign-up wizard** (`Signup`): the `SignupForm` class. It covers the field
  map, the per-step validation, the step counter clamped to 1..3, and the
  order of the checks on submit.
- **Password reset** (`ResetPassword`): the `ResetPasswordPage` class, with
  the session check, the screen shown, and the check chain on submit.
- **Support API** (`SupportStore`, `SupportReplies`, `SupportMessages`,
  `SupportUnread`): the three route handlers. They run as methods over an
  in-memory `Store` of users, tickets, replies and last-seen rows, and
  return an HTTP status or a value.

Shared pieces:

- `Common` holds the Option and HTTP result types, JavaScript's `||` on
  optional strings, case mapping and substring search.
- `Records` holds the database rows.
- Timestamps are integers, and the epoch is 0.
- Remote outcomes are parameters of the methods that depend on them: a
  write that succeeds or fails, a session that exists or not, a configured
  database client. Examples are `insertOk`, `statusOk` and `configured`.

## Model

| member | source | states |
|---|---|---|
| Email.EscapeHtml | src/lib/email.ts:627-634 | the escaped text contains no `<`, `>`, `"` or `'` |
| Email.EscapeHtmlIsPerCharacter | src/lib/email.ts:628-633 | the five chained replacements, `&` first, equal escaping each character on its own: an entity made by a later step is never escaped again |
| Email.EscapeHtmlLength | src/lib/email.ts:628-633 | output length = input length + 4 per `&`, 3 per `<`, 3 per `>`, 5 per `"` and 5 per `'` |
| Email.EscapeHtmlSafeIdentity | src/lib/email.ts:628-633 | text without any of the five special characters comes back unchanged |
| Email.UnescapeEscapeHtml | src/lib/email.ts:628-633 | decoding the five entities gives back the original text, so escaping loses nothing |
| Email.StatusColor | src/lib/email.ts:315-323 | the five known statuses get their fixed colour; the grey default is returned exactly for every other status |
| Email.StatusLabelSpec | src/lib/email.ts:324 | without `_` the label is the upper-cased status; otherwise only the first `_` becomes a space and the rest is only upper-cased |
| Email.OutForDeliveryLabel | src/lib/email.ts:324 | `out_for_delivery` is labelled `OUT FOR_DELIVERY` |
| Email.GreetingName | src/lib/email.ts:250 | the greeting uses the full name when it is non-empty, the email address otherwise |
| Email.ShipmentCreatedEmail | src/lib/email.ts:46-57 | sent to the user, subject `Your Shipment <tracking number> Has Been Created - QuickVessel`, the greeting name and tracking number, the status badge (the status label), description, current location, weight as `<w> kg` or `N/A`, dimensions or `N/A`, origin and destination, a delivery date only when one is set, link `<app url or http://localhost:3000>/app` |
| Email.StatusUpdateNotification | src/lib/email.ts:59-72 | no email without a status change; otherwise the subject, the new status's label and colour, the previous status's label, the location, a details box exactly when the description is non-empty, and the default link |
| Email.SendStatusUpdateNotification | src/lib/email.ts:59-72 | returns false without a status change, and otherwise the transport's result |
| Email.SupportReplyNotification | src/lib/email.ts:549-623 | subject `Support reply: <subject>`; subject, original message, reply and user name are placed escaped; the greeting has a name only when one is given; the link is the given one, else `<app url or ''>/support` |
| Email.SupportReplyBodyIsEscaped | src/lib/email.ts:589-601 | every user-supplied field of the reply email is free of markup characters and decodes back to the supplied text |
| ShipmentList.FilteredShipments | src/app/admin/page.tsx:369-378 | the filtered list is no longer than the list, and holds only listed shipments that match both the search and the status filter |
| ShipmentList.FilteredShipmentsMembership | src/app/app/page.tsx:131-140 | a shipment appears in the filtered list iff it is listed, the lower-cased term occurs in one of the four lower-cased fields, and the filter is `all` or equals its status |
| ShipmentList.FilteredShipmentsCount | src/app/admin/page.tsx:369-378 | each matching shipment appears as often as in the list; non-matching ones do not appear |
| ShipmentList.FilteredShipmentsIsSubsequence | src/app/admin/page.tsx:369-377 | the filtered list keeps the list's order (a subsequence) |
| ShipmentList.FilteredShipmentsShowsAll | src/app/admin/page.tsx:369-377 | an empty search with filter `all` shows the whole list |
| ShipmentList.StatusStats | src/app/admin/page.tsx:380-388 | `total` is the number of shipments, and each of `inTransit`, `delivered`, `pending` and `exception` is the number of shipments the status filter shows for that status with an empty search |
| ShipmentList.StatusStatsPartition | src/app/app/page.tsx:142-150 | the four per-status counts plus the shipments in any other status (such as `out_for_delivery`) add up to the total |
| ShipmentList.CountStatusIsFilterLength | src/app/admin/page.tsx:383-386 | each per-status count equals the length of the list the status filter shows with an empty search |
| ShipmentList.Toggle | src/app/admin/page.tsx:280-302 | toggling flips the membership of that id and of no other |
| ShipmentList.ToggleTwice | src/app/admin/page.tsx:280-302 | toggling the same id twice restores the set |
| AdminDashboard.NewShipmentRow | src/app/admin/page.tsx:157-163 | the new row is the form as typed, with status `pending` and current location = origin; an empty weight or delivery date becomes null; description and dimensions are kept even when empty |
| AdminDashboard.NewShipmentIsPending | src/app/admin/page.tsx:157-163 | a new shipment raises the pending count and the total by one, and the pending filter with its tracking number finds it |
| AdminDashboard.UpdatedRows | src/app/admin/page.tsx:212-219 | every row with the id takes the new status, location and update time; all other rows stay the same; no status transition is checked |
| AdminDashboard.NewEvent | src/app/admin/page.tsx:224-232 | the event carries the shipment id and the submitted status, location and description |
| AdminDashboard.UpdateAgreesWithEvent | src/app/admin/page.tsx:212-232 | the update keeps shipment ids distinct, and afterwards the shipment's status and location are those of the event recorded with it |
| AdminDashboard.AdminPage.HandleAddShipment | src/app/admin/page.tsx:150-201 | without a client nothing happens; a failed insert changes nothing; on success exactly the new row is appended, the form is cleared and hidden, and the created-shipment email is requested for the new id |
| AdminDashboard.AdminPage.HandleUpdateStatus | src/app/admin/page.tsx:203-272 | a failed shipment write stops before the event insert; a failed event insert leaves the shipment updated; only full success requests the email and clears and hides the form; `updatingStatus` ends false |
| AdminDashboard.AdminPage.ToggleEventExpansion | src/app/admin/page.tsx:280-290 | the expanded-events set is toggled at the id and nothing else changes |
| AdminDashboard.AdminPage.ToggleShipmentExpansion | src/app/admin/page.tsx:292-302 | the expanded-shipments set is toggled at the id and nothing else changes |
| CustomerPortal.UnreadJson | src/app/api/support-unread/route.ts:41-45 | the response body has an `unread` field exactly when the route answered with a count, and it holds that count |
| CustomerPortal.InitialUnread | src/app/app/page.tsx:43-46 | a failed fetch or a missing `unread` field gives 0; otherwise the server's count |
| CustomerPortal.UnreadBadge | src/app/app/page.tsx:232-235 | no badge at 0; the single digit of the count for 1..9; `9+` above 9 |
| CustomerPortal.UnreadAfterClick | src/app/app/page.tsx:227 | any response to the mark-seen request, error statuses included, sets the local count to 0; only a failed request keeps it |
| CustomerPortal.LoadedBadge | src/app/app/page.tsx:43-46 | on load the badge is hidden exactly when the route rejects the request or counts zero |
| CustomerPortal.NoBadgeAfterRecordedVisit | src/app/api/support-unread/route.ts:72-77 | after a recorded visit at `now`, the next load shows no badge while every reply is older than `now` |
| Signup.ValidateStep | src/components/auth/SignupForm.tsx:46-57 | a step passes iff it is 1, 2 or 3 and each of the fields that step requires is filled in (the terms box ticked) |
| Signup.StepAfterNext | src/components/auth/SignupForm.tsx:59-66 | "next" moves one step on, never past 3, exactly when the current step validates |
| Signup.LastStepNeedsFirstTwo | src/components/auth/SignupForm.tsx:59-66 | from step 1, two presses of "next" reach step 3 iff steps 1 and 2 both validate |
| Signup.SubmitCheck | src/components/auth/SignupForm.tsx:76-84 | a password mismatch is reported before the terms check, and the call goes ahead only when the passwords match and the terms are accepted |
| Signup.SubmitIgnoresOtherFields | src/components/auth/SignupForm.tsx:76-84 | the submit checks read no field other than the two passwords and the terms box |
| Signup.SignupForm.HandleInputChange | src/components/auth/SignupForm.tsx:38-44 | only the named field changes: a checkbox takes its checked state, other inputs their text |
| Signup.SignupForm.NextStep | src/components/auth/SignupForm.tsx:59-66 | the step stays within 1..3 and advances only after validation; the error is cleared on success and set to `Please fill in all required fields` otherwise |
| Signup.SignupForm.PrevStep | src/components/auth/SignupForm.tsx:68-71 | the step goes back one, never below 1, and the error is cleared |
| Signup.SignupForm.HandleSubmit | src/components/auth/SignupForm.tsx:73-144 | the password and terms checks run before the client check; the auth error, success or exception decides the error and whether `onSuccess` runs; `loading` ends false once the call is attempted |
| ResetPassword.ResetCheck | src/app/auth/reset-password/page.tsx:66-76 | a mismatch is reported before the length rule; a matching password of fewer than 6 characters is rejected; 6 or more passes |
| ResetPassword.ResetCheckBoundary | src/app/auth/reset-password/page.tsx:66-76 | a short mismatched pair reports the mismatch, and exactly 6 characters pass |
| ResetPassword.ScreenOf | src/app/auth/reset-password/page.tsx:105-149 | the verifying screen shows while checking, then success, and the form only for a valid session |
| ResetPassword.ResetPasswordPage.CheckSession | src/app/auth/reset-password/page.tsx:28-56 | the session is valid only when the service returns one; each failure sets its own message; checking always ends |
| ResetPassword.ResetPasswordPage.HandleSubmit | src/app/auth/reset-password/page.tsx:61-103 | `loading` ends false on every path; the error follows the check chain, then the client check, then the update's outcome; success only on a successful update |
| SupportStore.FindTicket | src/app/api/support-replies/route.ts:45-53 | no ticket is found iff none has the id; a found ticket is in the table with that id |
| SupportStore.FindTicketIsTheTicket | src/app/api/support-replies/route.ts:45-53 | with distinct ids the lookup returns the one ticket with that id |
| SupportStore.SetTicketStatus | src/app/api/support-replies/route.ts:87-90 | only the ticket with the id changes, and only its status; ids stay distinct |
| SupportStore.NewestFirst | src/app/api/support-messages/route.ts:39 | the list is a permutation of the tickets, ordered by creation time with the newest first |
| SupportStore.LastSeenOf | src/app/api/support-unread/route.ts:26-32 | a user without a last-seen row is counted from the epoch |
| SupportStore.Upsert | src/app/api/support-unread/route.ts:72-77 | after the upsert the user's last-seen time is `now`, every other user's is unchanged, and the table still has at most one row per user |
| SupportStore.UnreadCount | src/app/api/support-unread/route.ts:35-39 | the count is at most the number of replies |
| SupportStore.NewReplyUnread | src/app/api/support-unread/route.ts:35-39 | a new reply adds one exactly when it is no older than the bound (inclusive) and not by the caller; the caller's own replies never count |
| SupportStore.UnreadCountOlderIsZero | src/app/api/support-unread/route.ts:38 | replies older than the bound never count |
| SupportStore.UnreadCountAntitone | src/app/api/support-unread/route.ts:38 | a later last-seen time never counts more replies |
| SupportReplies.ReplyGate | src/app/api/support-replies/route.ts:8-58 | invalid JSON 500, missing id or message 400, no session 401, no user row 404, no ticket 404, otherwise 403 unless the caller is an admin or owns the ticket |
| SupportReplies.NewReply | src/app/api/support-replies/route.ts:63-68 | the reply is on the ticket, by the caller, with the message, and is an admin reply iff the caller's role is `admin` |
| SupportReplies.NonAdminReplyIsOwners | src/app/api/support-replies/route.ts:56-68 | a reply that is not an admin reply was written by the ticket's owner |
| SupportReplies.ReplyNotice | src/app/api/support-replies/route.ts:108-118 | an email is requested iff the replier is an admin and the ticket owner has an email; it goes to the owner with the ticket's subject and message and the reply |
| SupportReplies.PostReply | src/app/api/support-replies/route.ts:6-127 | rejections and a failed insert change nothing; otherwise the reply is appended, an admin reply sets the ticket to `in_progress` (if that write succeeds), and only an admin reply can request the email |
| SupportMessages.GetMessages | src/app/api/support-messages/route.ts:5-51 | without a session check, returns every ticket newest first, or 500 when the query fails |
| SupportMessages.PriorityOf | src/app/api/support-messages/route.ts:55 | `medium` when no priority is sent, the sent value otherwise |
| SupportMessages.NewTicket | src/app/api/support-messages/route.ts:94-100 | the ticket belongs to the caller, has the subject and message, status `open` and the priority as defaulted |
| SupportMessages.PriorityDefaultsOnlyWhenAbsent | src/app/api/support-messages/route.ts:55 | a ticket is `medium` iff no priority or `medium` was sent; an empty priority stays empty |
| SupportMessages.PostMessage | src/app/api/support-messages/route.ts:53-121 | invalid JSON 500, missing subject or message 400, no session 401, no user row 404, insert failure 500; otherwise exactly the new ticket is appended |
| SupportUnread.Since | src/app/api/support-unread/route.ts:26-32 | replies are counted from the caller's last-seen time, or from the epoch when there is no readable row |
| SupportUnread.GetUnread | src/app/api/support-unread/route.ts:5-50 | 401 without a session, 500 on a query error, 0 for a null count, otherwise the unread count since the last visit |
| SupportUnread.MarkSeen | src/app/api/support-unread/route.ts:52-88 | 401 without a session, 500 when the upsert fails (nothing changes); otherwise the caller's row holds `now` and nothing else changes |
| SupportUnread.MarkSeenClearsUnread | src/app/api/support-unread/route.ts:72-77 | after marking seen at `now`, replies older than `now` stop counting, a reply by someone else at `now` still counts, and other users' last-seen times are untouched |
| SupportUnread.ReplyUnreadFor | src/app/api/support-replies/route.ts:60-68 | a reply never adds to its author's unread count, and an admin reply adds one to the owner's count when it is not older than the owner's last visit |

## Left out

- Email: the HTML and CSS around the fields. Each email is reduced to its recipient, its subject and the values it inserts into the HTML.
- Email: the shipment emails insert the description and the location without escaping. The model records the raw values: the created email keeps the description and current location, the status-update email the location of the change.
- Email.ShipmentCreatedEmail: an absent description is kept as `None`. The source's template literal prints it as the text `undefined` or `null`, which is not modelled.
- Email.ShipmentCreatedEmail: the weight is the stored text. A weight of zero is falsy in the source and shown as `N/A`; here any non-empty weight text is shown with ` kg`.
- Email.ShipmentCreatedEmail: the delivery date is kept as stored. The date formatting (`toLocaleDateString`) depends on the locale and is not modelled.
- Email: the mail transport is not modelled. `Email.SendStatusUpdateNotification` takes the transport's result as a parameter; a failed email never undoes a database write.
- The email-sending route handlers are not modelled. The dashboard only returns the request it would send to them.
- Email.StatusColor: JavaScript object keys inherited from the prototype, such as `constructor`, are not modelled. Such a status gets the grey default here.
- Common.Lower, Common.Upper: only the ASCII letters are case-mapped. JavaScript's full Unicode case mapping is not modelled.
- ResetPassword.ResetCheck: the length counts characters. JavaScript counts UTF-16 code units, so a character outside the Basic Multilingual Plane counts once here and twice in the source.
- AdminDashboard.NewShipmentRow: the weight is kept as the text typed in. `parseFloat` (floating point) is not modelled.
- Time: timestamps are integers passed in. The clock, ISO strings and string comparison of timestamps are not modelled.
- AdminDashboard.AdminPage: the reload of the tables after a write (`fetchAllData`, `fetchTrackingEvents`) is not modelled, nor the admin check on load.
- AdminDashboard.AdminPage: the support tab of the dashboard is not modelled; replies sent from there are modelled as the route they call.
- Signup.SignupForm.HandleSubmit: the fallback insert of a `users` row after sign-up is not modelled. Its failure is ignored by the source.
- Signup.SignupForm.HandleSubmit: the browser's `required` checks on inputs are not modelled. The handler itself checks only the passwords and the terms.
- ResetPassword.ResetPasswordPage.HandleSubmit: the redirect to `/app` three seconds after success is not modelled.
- SupportReplies.ReplyNotice: the re-read of the ticket after an admin reply is taken to succeed. A failed re-read would skip the email.
- SupportReplies.PostReply and SupportMessages.PostMessage: the user rows embedded in the responses are not modelled, and neither are the replies embedded in the ticket list of `GetMessages`.
- JSON bodies: a field is either a string or absent. Values of other JSON types are not modelled.
- Authentication: a failed user lookup and a missing session both appear as `None`.
- Row-level security is not modelled, and neither is concurrency. Each handler runs as one step, so a reply arriving between the count and the mark-seen, and the interleaving of the separate remote writes, are not represented.
