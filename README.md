# BigBlueButton meeting bridge — Dafny model

This project models the decision logic of Rocket.Chat's BigBlueButton video
bridge (`app/videobridge/server/methods/bbb.js`):

- `bbbJoin` checks the caller, creates the remote meeting, registers a
  webhook for the meeting, posts the optional start notice, marks the room as
  in a call and builds the join URL;
- `bbbEnd` checks the caller, ends the remote meeting and clears the room's
  call state;
- the `videoconference.bbb.update/:id` webhook clears the call state of the
  room whose meeting ended.

The meeting of a room is named `uniqueID + rid`; the webhook recovers the
room with `meetingID.replace(uniqueID, '')`. The join URL forwards every key
of the `bigbluebutton_userdata` setting that starts with `userdata-bbb` as
`custom_<key>`.

Layout:

- `values.dfy` — `Option`, the JSON-like `Value` and JavaScript truthiness.
- `js_string.dfy` — `trim`, `indexOf` and `replace(pattern, '')` on strings.
- `meeting_id.dfy` — the meeting-ID scheme and its round trip.
- `userdata.dfy` — the `filter`/`reduce` that turns user data into `custom_` parameters.
- `bbb.dfy` — class `Bridge`: the per-room streaming state (`map<string, Streaming>`),
  the messages sent, and the remote calls issued, changed by `Join`, `End` and `Webhook`.

Everything the bridge asks the outside world is a parameter of the method
that asks it: the caller's `userId`, the `canAccessRoom` answer, the
settings, the room and user records, the HTTP status codes, the decoded XML
fields `returncode[0]` and `messageKey[0]` (or a reply that did not parse),
the outcome of `JSON.parse` on the user data, the localized start notice and
the fresh message ID. A remote call is recorded as the action and parameter
map passed to `urlFor`.

Three points of the code that the model keeps as they are:

- the webhook route is `videoconference.bbb.update/:id`;
- a create or end reply that is not XML, or that lacks the `returncode`
  element (or, for a create reply read with the start notice switched on,
  the `messageKey` element), makes the method throw;
- the user-data setting is trimmed before it is tested for emptiness, so a
  setting holding only white space counts as `{}`.

## Model

| member | source | states |
|---|---|---|
| `Videobridge.CallerCheck` | app/videobridge/server/methods/bbb.js:29-39 | the ordered caller checks: no user or no room access gives `error-invalid-user` whatever the feature switch says; with both, a disabled feature gives `error-not-allowed`; only all three passing lets the call proceed |
| `Videobridge.Bridge.Join` | app/videobridge/server/methods/bbb.js:28-127 | a failed caller check raises with no remote call, message or state change; a create reply that does not decode or has no `returncode` raises, and a falsy `returncode[0]` or a hook status other than 200 yields nothing, in all these cases with no message sent and the streaming state unchanged; with the notice switched on, a create reply without `messageKey` raises after the hook call, still with no message and no state change; after a wired hook the notice is sent exactly when enabled, not a `duplicateWarning` and non-empty, carrying `rid` and the text; the room is set to `call` before user data is read; malformed non-empty user data then yields nothing but leaves `call`; blank user data counts as `{}`; the display name is the configured attribute when truthy, else the username; only `rid` changes |
| `Videobridge.Bridge.OpenMeeting` | app/videobridge/server/methods/bbb.js:61-125 | the part of the join after a successful create: exactly one `hooks/create` call is issued; a hook status other than 200 yields nothing and changes nothing; with the notice on and no `messageKey` it raises with no message and no state change; otherwise the notice is sent exactly when enabled, not a `duplicateWarning` and non-empty, the room is set to `call` before user data is read, malformed non-empty user data yields nothing, and otherwise the join URL is returned |
| `Videobridge.JoinUrlSpec` | app/videobridge/server/methods/bbb.js:103-124 | the join URL carries `password='mp'`, `meetingID = uniqueID + rid`, the display name, `userID`, `joinViaHtml5 = true` and the avatar URL, plus exactly one `custom_<k>` per user-data key `k` starting with `userdata-bbb`, holding `k`'s value; no other key |
| `Videobridge.BaseJoinParamsNotCustom` | app/videobridge/server/methods/bbb.js:116-124 | none of the base join parameter names starts with `custom_`, so forwarded user data never overwrites them |
| `Videobridge.Bridge.End` | app/videobridge/server/methods/bbb.js:129-160 | a failed caller check raises with no remote call and no state change; otherwise exactly one `end` call is issued; a status other than 200 clears the room and raises; with 200, a reply that is not XML or has no `returncode` raises and changes nothing, and otherwise the room is cleared exactly when `returncode[0]` is `SUCCESS` or `FAILED`, any other return code leaves every room as it was; no other room changes and no message is sent |
| `Videobridge.Bridge.Webhook` | app/videobridge/server/methods/bbb.js:163-176 | a `meeting-ended` event clears the room recovered from its external meeting ID and nothing else; any other event, or a body that does not parse, changes nothing; no remote call, no message |
| `Videobridge.AbsoluteUrl` | app/videobridge/server/methods/bbb.js:65 | an absolute URL is the site's root URL followed by the path |
| `Videobridge.CreateRequest` | app/videobridge/server/methods/bbb.js:44-55 | the `create` call carries exactly the ten parameters of the code: the name (`Direct` for a direct room, the room name otherwise), the meeting ID, attendee password `ap`, moderator password `mp`, the welcome text, and the HTML5 flags (chat, navbar and webcam sharing off; auto-swap layout and hidden presentation on) |
| `Videobridge.HookRequest` | app/videobridge/server/methods/bbb.js:63-66 | the `hooks/create` call carries exactly the meeting ID and a callback URL under the site's root that ends with the meeting ID, with no event filter |
| `Videobridge.EndRequest` | app/videobridge/server/methods/bbb.js:144-147 | the `end` call carries exactly the meeting ID and the moderator password that `create` set |
| `Videobridge.DisplayName` | app/videobridge/server/methods/bbb.js:103-106 | a truthy value of the configured user attribute is the display name; the username is used only when that attribute is missing or falsy |
| `JsString.Trim` | app/videobridge/server/methods/bbb.js:92 | the trimmed string is a piece of the input that neither starts nor ends with white space |
| `JsString.RemoveFirst` | app/videobridge/server/methods/bbb.js:169 | `replace(pat, '')` leaves the string as it is when `pat` does not occur; otherwise it is `|pat|` shorter and keeps everything before the first occurrence |
| `UserData.Spread` | app/videobridge/server/methods/bbb.js:111-116 | the object spread in the reduce never drops a key of the accumulated object |
| `MeetingIds.RoomOfMeetingId` | app/videobridge/server/methods/bbb.js:169 | removing the first occurrence of `uniqueID` from `uniqueID + rid` gives back exactly `rid`, for every `rid` and also for an empty `uniqueID` |
| `MeetingIds.MeetingIdOfRoom` | app/videobridge/server/methods/bbb.js:169 | every meeting ID that starts with `uniqueID` is `uniqueID` followed by the room recovered from it |
| `MeetingIds.MeetingIdInjective` | app/videobridge/server/methods/bbb.js:42 | two rooms of one installation never get the same meeting ID |
| `MeetingIds.RoomOfForeign` | app/videobridge/server/methods/bbb.js:169 | a meeting ID not containing `uniqueID` is taken unchanged as the room ID |
| `JsString.IndexOf` | app/videobridge/server/methods/bbb.js:169 | the index `replace` uses is the first occurrence of the pattern, and there is none when it reports none |
| `JsString.RemovePrefix` | app/videobridge/server/methods/bbb.js:169 | replacing a pattern that starts the string with `''` leaves the rest of the string |
| `JsString.RemoveAbsent` | app/videobridge/server/methods/bbb.js:169 | replacing a pattern that does not occur leaves the string unchanged |
| `JsString.TrimStart` | app/videobridge/server/methods/bbb.js:92 | the result is a suffix of the input with no leading white space, and everything dropped is white space |
| `JsString.TrimEnd` | app/videobridge/server/methods/bbb.js:92 | the result is a prefix of the input with no trailing white space, and everything dropped is white space |
| `JsString.TrimBlank` | app/videobridge/server/methods/bbb.js:92-94 | the trimmed user-data setting is empty exactly when the setting is empty or only white space |
| `UserData.SelectForwarded` | app/videobridge/server/methods/bbb.js:109-110 | the filter keeps exactly the properties whose key starts with `userdata-bbb`, with their values, and keeps keys distinct |
| `UserData.CustomKeyInjective` | app/videobridge/server/methods/bbb.js:114 | distinct user-data keys give distinct `custom_` keys |
| `UserData.SpreadSpec` | app/videobridge/server/methods/bbb.js:111-116 | the reduce adds exactly the `custom_` keys of the properties, each with its property's value, and leaves every other key as it was |
| `UserData.JoinParamsSpec` | app/videobridge/server/methods/bbb.js:109-124 | over base parameters without `custom_` names: the base keys keep their values, the added keys are exactly `custom_<k>` for forwarded keys `k` with `k`'s value, and a key without the prefix never yields a `custom_` key |

## Left out

- Outbound HTTP (`HTTP.get`): network I/O; only the status code and decoded reply it yields are modelled, as parameters.
- XML decoding with `xml2js`: a foreign library; the decoded `returncode[0]` and `messageKey[0]` are parameters, absent when the element is missing. A reply that parses but lacks the `response` root element (a `TypeError` in the code) is not distinguished from one whose elements are missing.
- `BigBlueButtonApi.urlFor` and its checksum signing, and `getBBBAPI`'s server URL and shared secret: the library is not part of this model; a call is recorded as its action name and parameter map.
- `JSON.parse` of the user-data setting and of the webhook body: its outcome is a parameter (`None` when it throws); parsed objects are property lists in `Object.keys` order with distinct keys, which is what `Join`'s precondition on the parsed object says. A parsed number, string or array gives `Object.keys` no key starting with `userdata-bbb`, so the caller passes it as an empty property list.
- Videobridge.Bridge.Join: does not model collaborators that throw: `HTTP.get` failing (a network error, or Meteor's error on a 4xx/5xx status) at bbb.js:57 or 68, `sendMessage` throwing at bbb.js:84 (before the room is set to `call`), and `JSON.parse` yielding `null`, for which `Object.keys(null)` throws at bbb.js:109 after the room was set to `call`; `hookStatus` is the status that a returning `HTTP.get` gave.
- Videobridge.Bridge.End: does not model `HTTP.get` throwing at bbb.js:149 (a network error, or Meteor's error on a 4xx/5xx status), which raises without clearing the room because bbb.js:152 is never reached; `status` is the status that a returning `HTTP.get` gave.
- `TAPi18n`, `Random.id`, `Meteor.call('canAccessRoom')`, `Meteor.call('sendMessage')`, `Users`/`Rooms` lookups and logging: external collaborators; their answers are parameters and a sent message is appended to `Bridge.sent`. A missing user or room record (a `TypeError` in the code) is not modelled.
- `Meteor.absoluteUrl`: modelled as the site root URL followed by the path; its normalisation of the root URL is not modelled.
- `JsString.RemoveFirst` models `String.prototype.replace` only with the empty replacement string the code uses, so `$` replacement patterns are not modelled.
- `Values.Value` keeps JSON numbers as reals, so `NaN` (falsy in JavaScript) is not represented; arrays and objects are kept as their text, which is enough since the bridge only tests their truthiness and forwards them.
- The route's `:id` parameter and the unused `url` from `getBBBAPI`: never read by the code.
- The commented-out `user-left` participant-count handler: dead code.
- Concurrent join and end on the same room: the model is sequential.
