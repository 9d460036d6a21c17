/**
 * The BigBlueButton meeting bridge: joining and ending a room's video
 * meeting, and the webhook through which the conferencing server reports
 * that a meeting ended. Every answer from outside (HTTP status, decoded XML
 * fields, parsed JSON, room access, the localized notice) is a parameter.
 */
module Videobridge {
  import opened Values
  import opened JsString
  import MeetingIds
  import UserData

  /** The streaming options saved on a room: `{ type: 'call' }` or `{}`. */
  datatype Streaming = Cleared | Call

  /** A chat message handed to `sendMessage`. */
  datatype Message = Message(id: string, rid: string, msg: string)

  /** `api.urlFor(action, params)`: a remote call named by its action and parameters (the checksum is not modelled). */
  datatype Request = Request(action: string, params: map<string, Value>)

  /**
   * `error-invalid-user`, `error-not-allowed`, a reply that is not XML, the
   * `TypeError` of indexing an XML element the reply lacks, and the error
   * `bbbEnd` raises on a bad status.
   */
  datatype Error = InvalidUser | NotAllowed | DecodeFailed | MissingElement | EndFailed(status: int)

  /**
   * A decoded XML reply, or a document that did not parse. Each field is
   * `response.<element>[0]`, None when the element is absent (then reading
   * `[0]` throws).
   */
  datatype Reply = Malformed | Response(returncode: Option<string>, messageKey: Option<string>)

  /** What `bbbJoin` gives its caller: `{ url }`, `undefined`, or a thrown error. */
  datatype JoinOutcome = Joined(url: Request) | NoResult | Raised(error: Error)

  /** The room record: its type `t` and its name. */
  datatype Room = Room(t: string, name: string)

  /** The user record: `_id`, `username` and the attributes looked up by name. */
  datatype User = User(id: string, username: string, fields: map<string, Value>)

  /** The settings the bridge reads. */
  datatype Settings = Settings(
    enabled: bool,                    // bigbluebutton_Enabled
    uniqueId: string,                 // uniqueID
    startNotificationEnabled: bool,   // bigbluebutton_meeting_start_notification_Enabled
    userdata: string,                 // bigbluebutton_userdata
    fullnameField: string,            // bigbluebutton_fullname
    rootUrl: string)                  // the site's root URL, as Meteor.absoluteUrl() prefixes it

  /** The first event of a webhook body: `data.id` and `data.attributes.meeting['external-meeting-id']`. */
  datatype Event = Event(id: string, externalMeetingId: string)

  /**
   * The checks both `bbbJoin` and `bbbEnd` make before any remote call, in
   * order: a logged-in caller, then room access, then the feature switch.
   */
  function CallerCheck(userId: Option<string>, canAccess: bool, enabled: bool): (r: Option<Error>)
    ensures r == None <==> userId.Some? && canAccess && enabled
    ensures r == Some(InvalidUser) <==> userId.None? || !canAccess
    ensures r == Some(NotAllowed) <==> userId.Some? && canAccess && !enabled
  {
    if userId.None? then Some(InvalidUser)
    else if !canAccess then Some(InvalidUser)
    else if !enabled then Some(NotAllowed)
    else None
  }

  /** `Meteor.absoluteUrl(path)`: the path under the site's root URL. */
  function AbsoluteUrl(rootUrl: string, path: string): (r: string)
    ensures rootUrl <= r && r[|rootUrl|..] == path
  {
    rootUrl + path
  }

  const CreateParams: set<string> := {
    "name", "meetingID", "attendeePW", "moderatorPW", "welcome", "meta_html5chat",
    "meta_html5navbar", "meta_html5autoswaplayout", "meta_html5autosharewebcam", "meta_html5hidepresentation"}

  /** The `create` call, with the fixed passwords, welcome text and HTML5 layout flags. */
  function CreateRequest(room: Room, meetingId: string): (r: Request)
    ensures r.action == "create" && r.params.Keys == CreateParams
    ensures r.params["meetingID"] == Str(meetingId)
    ensures r.params["moderatorPW"] == Str("mp") && r.params["attendeePW"] == Str("ap")
    ensures r.params["name"] == Str(if room.t == "d" then "Direct" else room.name)
    ensures r.params["meta_html5autoswaplayout"] == r.params["meta_html5hidepresentation"] == Bool(true)
    ensures r.params["meta_html5chat"] == r.params["meta_html5navbar"] == r.params["meta_html5autosharewebcam"] == Bool(false)
  {
    Request("create", map[
      "name" := Str(if room.t == "d" then "Direct" else room.name),
      "meetingID" := Str(meetingId),
      "attendeePW" := Str("ap"),
      "moderatorPW" := Str("mp"),
      "welcome" := Str("<br>Welcome to <b>%%CONFNAME%%</b>!"),
      "meta_html5chat" := Bool(false),
      "meta_html5navbar" := Bool(false),
      "meta_html5autoswaplayout" := Bool(true),
      "meta_html5autosharewebcam" := Bool(false),
      "meta_html5hidepresentation" := Bool(true)])
  }

  /**
   * The `hooks/create` call for the meeting: its callback is a URL under the
   * site's root that ends with the meeting ID.
   */
  function HookRequest(rootUrl: string, meetingId: string): (r: Request)
    ensures r.action == "hooks/create" && r.params.Keys == {"meetingID", "callbackURL"}
    ensures r.params["meetingID"] == Str(meetingId)
    ensures r.params["callbackURL"].Str?
    ensures var url := r.params["callbackURL"].s;
      rootUrl <= url && |meetingId| <= |url| && url[|url| - |meetingId|..] == meetingId
  {
    var url := AbsoluteUrl(rootUrl, "api/v1/videoconference.bbb.update/" + meetingId);
    assert url == (rootUrl + "api/v1/videoconference.bbb.update/") + meetingId;
    Request("hooks/create", map["meetingID" := Str(meetingId), "callbackURL" := Str(url)])
  }

  /** The `end` call for the meeting, with the moderator password the `create` call set. */
  function EndRequest(meetingId: string): (r: Request)
    ensures r.action == "end" && r.params.Keys == {"meetingID", "password"}
    ensures r.params["meetingID"] == Str(meetingId)
    ensures forall room :: r.params["password"] == CreateRequest(room, meetingId).params["moderatorPW"]
  {
    Request("end", map["meetingID" := Str(meetingId), "password" := Str("mp")])
  }

  /** The join parameters before any custom user data is added. */
  function BaseJoinParams(meetingId: string, fullName: Value, user: User, rootUrl: string): (r: map<string, Value>)
  {
    map[
      "password" := Str("mp"),
      "meetingID" := Str(meetingId),
      "fullName" := fullName,
      "userID" := Str(user.id),
      "joinViaHtml5" := Bool(true),
      "avatarURL" := Str(AbsoluteUrl(rootUrl, "avatar/" + user.username))]
  }

  /**
   * The display name: a truthy value of the configured attribute always wins;
   * the username is used only when the attribute is missing or falsy.
   */
  ghost function DisplayName(user: User, field: string): (r: Value)
    ensures field in user.fields && Truthy(user.fields[field]) ==> r == user.fields[field]
    ensures !(field in user.fields && Truthy(user.fields[field])) ==> r == Str(user.username)
  {
    if field in user.fields && Truthy(user.fields[field]) then user.fields[field] else Str(user.username)
  }

  /** A start notice is posted: the notice is switched on, the meeting is new and the localized text is not empty. */
  ghost predicate Announces(settings: Settings, messageKey: Option<string>, notice: string)
  {
    settings.startNotificationEnabled && messageKey != Some("duplicateWarning") && notice != ""
  }

  /** Join got past its caller checks and the create reply decoded with a truthy return code. */
  ghost predicate Created(userId: Option<string>, canAccess: bool, settings: Settings, create: Reply)
  {
    CallerCheck(userId, canAccess, settings.enabled) == None
    && create.Response? && TruthyText(create.returncode)
  }

  /**
   * With the notice switched on, Join reads `messageKey[0]`, which throws
   * when the create reply has no `messageKey` element.
   */
  ghost predicate MessageKeyMissing(settings: Settings, messageKey: Option<string>)
  {
    settings.startNotificationEnabled && messageKey.None?
  }

  /** The user data the join call forwards: `{}` for a blank setting, the parsed object otherwise. */
  ghost function UserDataObject(settings: Settings, parsed: Option<Props>): Props
    requires Trim(settings.userdata) == [] || parsed.Some?
  {
    if Trim(settings.userdata) == [] then [] else parsed.value
  }

  /** The join parameter map of a successful join. */
  ghost function JoinUrl(rid: string, settings: Settings, user: User, data: Props): Request
  {
    Request("join", UserData.JoinParams(data,
      BaseJoinParams(MeetingIds.MeetingId(settings.uniqueId, rid), DisplayName(user, settings.fullnameField), user, settings.rootUrl)))
  }

  /** `bbbEnd` clears the room on these return codes. */
  predicate EndConfirmed(returncode: Option<string>)
  {
    returncode == Some("SUCCESS") || returncode == Some("FAILED")
  }

  /** The base join parameters hold no `custom_` key, so custom user data never overwrites them. */
  lemma BaseJoinParamsNotCustom(meetingId: string, fullName: Value, user: User, rootUrl: string)
    ensures forall k :: k in BaseJoinParams(meetingId, fullName, user, rootUrl) ==> !(UserData.CustomPrefix <= k)
  {
    forall k | k in BaseJoinParams(meetingId, fullName, user, rootUrl) ensures !(UserData.CustomPrefix <= k) {
      assert k[0] != UserData.CustomPrefix[0];
    }
  }

  /**
   * The join URL of a successful join: the six base parameters with their
   * fixed or derived values, plus exactly one `custom_<k>` parameter per
   * forwarded user-data key `k`, carrying `k`'s value.
   */
  lemma {:induction false} JoinUrlSpec(rid: string, settings: Settings, user: User, data: Props)
    requires UserData.DistinctKeys(data)
    ensures JoinUrl(rid, settings, user, data).action == "join"
    ensures JoinUrl(rid, settings, user, data).params.Keys ==
      {"password", "meetingID", "fullName", "userID", "joinViaHtml5", "avatarURL"}
      + set q | q in data && UserData.Forwarded(q.0) :: UserData.CustomKey(q.0)
    ensures var p := JoinUrl(rid, settings, user, data).params;
      && p["password"] == Str("mp")
      && p["meetingID"] == Str(settings.uniqueId + rid)
      && p["fullName"] == DisplayName(user, settings.fullnameField)
      && p["userID"] == Str(user.id)
      && p["joinViaHtml5"] == Bool(true)
      && p["avatarURL"] == Str(AbsoluteUrl(settings.rootUrl, "avatar/" + user.username))
    ensures forall q :: q in data && UserData.Forwarded(q.0) ==>
      JoinUrl(rid, settings, user, data).params[UserData.CustomKey(q.0)] == q.1
  {
    var base := BaseJoinParams(MeetingIds.MeetingId(settings.uniqueId, rid),
                               DisplayName(user, settings.fullnameField), user, settings.rootUrl);
    BaseJoinParamsNotCustom(MeetingIds.MeetingId(settings.uniqueId, rid),
                            DisplayName(user, settings.fullnameField), user, settings.rootUrl);
    UserData.JoinParamsSpec(data, base);
  }

  /**
   * The bridge's view of the world it changes: the streaming state saved on
   * each room, the chat messages sent, and the remote calls issued.
   */
  class Bridge {
    var streaming: map<string, Streaming>
    var sent: seq<Message>
    var requests: seq<Request>

    constructor (initial: map<string, Streaming>)
      ensures streaming == initial && sent == [] && requests == []
    {
      streaming := initial;
      sent := [];
      requests := [];
    }

    /**
     * `bbbJoin({ rid })`. `create` is the decoded create reply, `hookStatus`
     * the status of the hook registration, `notice` the localized start
     * notice, `messageId` the fresh message ID, and `parsed` the outcome of
     * `JSON.parse` on the trimmed user-data setting (None when it throws).
     */
    method Join(rid: string, userId: Option<string>, canAccess: bool, settings: Settings,
                room: Room, user: User, create: Reply, hookStatus: int,
                notice: string, messageId: string, parsed: Option<Props>)
      returns (r: JoinOutcome)
      requires parsed.Some? ==> UserData.DistinctKeys(parsed.value)
      modifies this
      // A failed caller check raises before anything else happens.
      ensures CallerCheck(userId, canAccess, settings.enabled).Some? ==>
        && r == Raised(CallerCheck(userId, canAccess, settings.enabled).value)
        && requests == old(requests) && streaming == old(streaming) && sent == old(sent)
      // Otherwise the create call is issued; a reply that does not decode or lacks `returncode` raises,
      // a falsy return code yields nothing.
      ensures CallerCheck(userId, canAccess, settings.enabled) == None && !Created(userId, canAccess, settings, create) ==>
        && r == (if create.Malformed? then Raised(DecodeFailed)
                 else if create.returncode.None? then Raised(MissingElement)
                 else NoResult)
        && requests == old(requests) + [CreateRequest(room, MeetingIds.MeetingId(settings.uniqueId, rid))]
        && streaming == old(streaming) && sent == old(sent)
      // After a successful create the hook is registered; a failed registration yields nothing and changes nothing.
      ensures Created(userId, canAccess, settings, create) ==>
        requests == old(requests) + [CreateRequest(room, MeetingIds.MeetingId(settings.uniqueId, rid))]
                                  + [HookRequest(settings.rootUrl, MeetingIds.MeetingId(settings.uniqueId, rid))]
      ensures Created(userId, canAccess, settings, create) && hookStatus != 200 ==>
        r == NoResult && streaming == old(streaming) && sent == old(sent)
      // With the notice on, a reply without `messageKey` raises once the hook is wired, before any message or state change.
      ensures Created(userId, canAccess, settings, create) && hookStatus == 200 && MessageKeyMissing(settings, create.messageKey) ==>
        r == Raised(MissingElement) && streaming == old(streaming) && sent == old(sent)
      // Otherwise: the notice is sent when due, the room is in a call, and the join URL is built.
      ensures Created(userId, canAccess, settings, create) && hookStatus == 200 && !MessageKeyMissing(settings, create.messageKey) ==>
        && streaming == old(streaming)[rid := Call]
        && sent == old(sent) + (if Announces(settings, create.messageKey, notice) then [Message(messageId, rid, notice)] else [])
        && (Trim(settings.userdata) != [] && parsed.None? ==> r == NoResult)
        && (Trim(settings.userdata) == [] || parsed.Some? ==>
              r == Joined(JoinUrl(rid, settings, user, UserDataObject(settings, parsed))))
    {
      var denied := CallerCheck(userId, canAccess, settings.enabled);
      if denied.Some? {
        return Raised(denied.value);
      }
      var meetingId := MeetingIds.MeetingId(settings.uniqueId, rid);
      requests := requests + [CreateRequest(room, meetingId)];
      if create.Malformed? {
        return Raised(DecodeFailed);
      }
      if create.returncode.None? {
        return Raised(MissingElement);
      }
      if create.returncode.value == "" {
        return NoResult;
      }
      r := OpenMeeting(rid, settings, user, hookStatus, create.messageKey, notice, messageId, parsed);
    }

    /**
     * The rest of `bbbJoin` once the create call succeeded: the hook
     * registration, the start notice, the call state, the user data and the
     * join URL. `messageKey` is the create reply's `messageKey[0]`.
     */
    method OpenMeeting(rid: string, settings: Settings, user: User, hookStatus: int, messageKey: Option<string>,
                       notice: string, messageId: string, parsed: Option<Props>)
      returns (r: JoinOutcome)
      requires parsed.Some? ==> UserData.DistinctKeys(parsed.value)
      modifies this
      ensures requests == old(requests) + [HookRequest(settings.rootUrl, MeetingIds.MeetingId(settings.uniqueId, rid))]
      ensures hookStatus != 200 ==> r == NoResult && streaming == old(streaming) && sent == old(sent)
      ensures hookStatus == 200 && MessageKeyMissing(settings, messageKey) ==>
        r == Raised(MissingElement) && streaming == old(streaming) && sent == old(sent)
      ensures hookStatus == 200 && !MessageKeyMissing(settings, messageKey) ==>
        && streaming == old(streaming)[rid := Call]
        && sent == old(sent) + (if Announces(settings, messageKey, notice) then [Message(messageId, rid, notice)] else [])
        && (Trim(settings.userdata) != [] && parsed.None? ==> r == NoResult)
        && (Trim(settings.userdata) == [] || parsed.Some? ==>
              r == Joined(JoinUrl(rid, settings, user, UserDataObject(settings, parsed))))
    {
      var meetingId := MeetingIds.MeetingId(settings.uniqueId, rid);
      requests := requests + [HookRequest(settings.rootUrl, meetingId)];
      if hookStatus != 200 {
        return NoResult;
      }
      if settings.startNotificationEnabled {
        if messageKey.None? {
          return Raised(MissingElement);
        }
        if messageKey.value != "duplicateWarning" && notice != "" {
          sent := sent + [Message(messageId, rid, notice)];
        }
      }
      streaming := streaming[rid := Call];

      var userdata := Trim(settings.userdata);
      var data: Props := [];
      if userdata != [] {
        if parsed.None? {
          return NoResult;
        }
        data := parsed.value;
      }

      var fullName := Str(user.username);
      if settings.fullnameField in user.fields && Truthy(user.fields[settings.fullnameField]) {
        fullName := user.fields[settings.fullnameField];
      }

      r := Joined(Request("join", UserData.JoinParams(data, BaseJoinParams(meetingId, fullName, user, settings.rootUrl))));
    }

    /**
     * `bbbEnd({ rid })`. `status` is the HTTP status of the end call and
     * `reply` its decoded body; the result is the error raised, if any.
     */
    method End(rid: string, userId: Option<string>, canAccess: bool, settings: Settings,
               status: int, reply: Reply)
      returns (err: Option<Error>)
      modifies this
      ensures sent == old(sent)
      // A failed caller check raises before any remote call.
      ensures CallerCheck(userId, canAccess, settings.enabled).Some? ==>
        err == CallerCheck(userId, canAccess, settings.enabled)
        && requests == old(requests) && streaming == old(streaming)
      ensures CallerCheck(userId, canAccess, settings.enabled) == None ==>
        requests == old(requests) + [EndRequest(MeetingIds.MeetingId(settings.uniqueId, rid))]
      // A bad status clears the room and raises.
      ensures CallerCheck(userId, canAccess, settings.enabled) == None && status != 200 ==>
        err == Some(EndFailed(status)) && streaming == old(streaming)[rid := Cleared]
      // A body that is not XML raises and changes nothing.
      ensures CallerCheck(userId, canAccess, settings.enabled) == None && status == 200 && reply.Malformed? ==>
        err == Some(DecodeFailed) && streaming == old(streaming)
      // A reply without `returncode` raises and changes nothing.
      ensures CallerCheck(userId, canAccess, settings.enabled) == None && status == 200 && reply.Response?
              && reply.returncode.None? ==>
        err == Some(MissingElement) && streaming == old(streaming)
      // SUCCESS or FAILED clears the room; any other return code leaves every room as it was.
      ensures CallerCheck(userId, canAccess, settings.enabled) == None && status == 200 && reply.Response?
              && reply.returncode.Some? ==>
        err == None
        && streaming == if EndConfirmed(reply.returncode) then old(streaming)[rid := Cleared] else old(streaming)
    {
      err := CallerCheck(userId, canAccess, settings.enabled);
      if err.Some? {
        return;
      }
      var meetingId := MeetingIds.MeetingId(settings.uniqueId, rid);
      requests := requests + [EndRequest(meetingId)];
      if status != 200 {
        streaming := streaming[rid := Cleared];
        return Some(EndFailed(status));
      }
      if reply.Malformed? {
        return Some(DecodeFailed);
      }
      if reply.returncode.None? {
        return Some(MissingElement);
      }
      if reply.returncode.value == "SUCCESS" || reply.returncode.value == "FAILED" {
        streaming := streaming[rid := Cleared];
      }
    }

    /**
     * The `videoconference.bbb.update/:id` webhook. `event` is the first
     * event of the body, None when the body does not parse. A `meeting-ended`
     * event clears the room its meeting ID names; nothing else changes.
     */
    method Webhook(settings: Settings, event: Option<Event>)
      modifies this
      ensures sent == old(sent) && requests == old(requests)
      ensures event.Some? && event.value.id == "meeting-ended" ==>
        streaming == old(streaming)[MeetingIds.RoomOf(settings.uniqueId, event.value.externalMeetingId) := Cleared]
      ensures event.None? || event.value.id != "meeting-ended" ==> streaming == old(streaming)
    {
      if event.None? {
        return;
      }
      var rid := MeetingIds.RoomOf(settings.uniqueId, event.value.externalMeetingId);
      if event.value.id == "meeting-ended" {
        streaming := streaming[rid := Cleared];
      }
    }
  }

  /**
   * A room joined through the bridge is cleared by the `meeting-ended`
   * webhook for its meeting, and no other room changes.
   */
  method MeetingEndedClearsJoinedRoom(uniqueId: string, rid: string, other: string, user: User)
    requires other != rid
  {
    var settings := Settings(true, uniqueId, false, "", "name", "https://chat.example/");
    var bridge := new Bridge(map[other := Call]);
    var create := Response(Some("SUCCESS"), None);
    assert Created(Some(user.id), true, settings, create) && !MessageKeyMissing(settings, create.messageKey);
    var r := bridge.Join(rid, Some(user.id), true, settings, Room("c", "general"), user,
                         create, 200, "", "m1", None);
    assert bridge.streaming[rid] == Call;
    bridge.Webhook(settings, Some(Event("meeting-ended", MeetingIds.MeetingId(uniqueId, rid))));
    MeetingIds.RoomOfMeetingId(uniqueId, rid);
    assert bridge.streaming[rid] == Cleared && bridge.streaming[other] == Call;
  }
}
