/**
 * The meeting-ID scheme: the remote meeting of a chat room is named by the
 * installation's unique ID followed by the room ID, and the room is found
 * again by removing the first occurrence of the unique ID.
 */
module MeetingIds {
  import opened JsString

  /** `settings.get('uniqueID') + rid`. */
  function MeetingId(uniqueId: string, rid: string): (r: string)
  {
    uniqueId + rid
  }

  /** `meetingID.replace(settings.get('uniqueID'), '')`. */
  function RoomOf(uniqueId: string, meetingId: string): (r: string)
  {
    RemoveFirst(meetingId, uniqueId)
  }

  /** Recovering the room from its own meeting ID gives back exactly that room, even for an empty unique ID. */
  lemma {:induction false} RoomOfMeetingId(uniqueId: string, rid: string)
    ensures RoomOf(uniqueId, MeetingId(uniqueId, rid)) == rid
  {
    var m := MeetingId(uniqueId, rid);
    RemovePrefix(m, uniqueId);
    assert m[|uniqueId|..] == rid;
  }

  /** Every meeting ID that starts with the unique ID is the meeting ID of the room recovered from it. */
  lemma {:induction false} MeetingIdOfRoom(uniqueId: string, meetingId: string)
    requires uniqueId <= meetingId
    ensures MeetingId(uniqueId, RoomOf(uniqueId, meetingId)) == meetingId
  {
    RemovePrefix(meetingId, uniqueId);
    assert meetingId == uniqueId + meetingId[|uniqueId|..];
  }

  /** Two rooms of one installation never share a meeting. */
  lemma {:induction false} MeetingIdInjective(uniqueId: string, rid1: string, rid2: string)
    requires MeetingId(uniqueId, rid1) == MeetingId(uniqueId, rid2)
    ensures rid1 == rid2
  {
    RoomOfMeetingId(uniqueId, rid1);
    RoomOfMeetingId(uniqueId, rid2);
  }

  /** A meeting ID that does not contain the unique ID is taken as the room ID unchanged. */
  lemma {:induction false} RoomOfForeign(uniqueId: string, meetingId: string)
    requires forall j :: 0 <= j <= |meetingId| ==> !OccursAt(meetingId, uniqueId, j)
    ensures RoomOf(uniqueId, meetingId) == meetingId
  {
    RemoveAbsent(meetingId, uniqueId);
  }
}
