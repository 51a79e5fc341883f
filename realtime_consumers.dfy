/** The WebSocket consumer of api/realtime/consumers.py. A connection by an
    authenticated user joins that user's group and is accepted; an anonymous
    one is closed. Disconnecting leaves the group only when it was joined.
    Each notification the group receives is forwarded to the client. */
module RealtimeConsumers {

  import opened Common
  import opened RealtimeUtils

  /** `scope.get("user")`: absent, anonymous, or an authenticated user. */
  datatype ScopeUser = NoUser | Anonymous | Authenticated(id: Id)

  /** The frame sent to the client for a notification event (before
      `json.dumps`): the event type, the status (default "success") and the
      payload (default {}). */
  function Frame(event: map<string, Value>): (f: map<string, Value>)
    ensures f.Keys == {"event_type", "status", "payload"}
    ensures f["event_type"] == Lookup(event, "event_type")
    ensures f["status"] == (if "status" in event then event["status"] else Str("success"))
    ensures f["payload"] == (if "data" in event then event["data"] else Dict(map[]))
  {
    map["event_type" := Lookup(event, "event_type"),
        "status" := LookupOr(event, "status", Str("success")),
        "payload" := LookupOr(event, "data", Dict(map[]))]
  }

  /** A notification sent by `send_ws_notification` reaches the client with
      its event type, status "success" and the payload unchanged. */
  lemma NotificationReachesClient(eventType: string, payload: map<string, Value>)
    ensures Frame(NotificationMessage(eventType, payload)) ==
      map["event_type" := Str(eventType), "status" := Str("success"), "payload" := Dict(payload)]
  {
  }

  class NotificationConsumer {
    const channelName: string
    var userId: Option<Id>
    /** `self.user_group_name`; None while the attribute is not set. */
    var groupName: Option<string>
    var accepted: bool
    var closed: bool
    /** The frames sent to the client, in order. */
    var frames: seq<map<string, Value>>

    constructor (channelName: string)
      ensures this.channelName == channelName
      ensures userId.None? && groupName.None? && !accepted && !closed && frames == []
    {
      this.channelName := channelName;
      userId := None;
      groupName := None;
      accepted := false;
      closed := false;
      frames := [];
    }

    /** `connect()`. */
    method Connect(layer: ChannelLayer, user: ScopeUser)
      modifies this, layer
      ensures !user.Authenticated? ==>
        closed && accepted == old(accepted) && userId == old(userId) && groupName == old(groupName)
        && layer.groups == old(layer.groups)
      ensures user.Authenticated? ==>
        closed == old(closed) && accepted && userId == Some(user.id) && groupName == Some(GroupName(user.id))
        && layer.groups == old(layer.groups)[GroupName(user.id) := Members(old(layer.groups), GroupName(user.id)) + {channelName}]
      ensures user.Authenticated? ==> channelName in Members(layer.groups, groupName.value)
      ensures layer.sent == old(layer.sent) && frames == old(frames)
    {
      if !user.Authenticated? {
        closed := true;
        return;
      }
      userId := Some(user.id);
      var group := GroupName(user.id);
      groupName := Some(group);
      layer.GroupAdd(group, channelName);
      // The channel is in the group before the connection is accepted.
      assert channelName in Members(layer.groups, group);
      accepted := true;
    }

    /** `disconnect(close_code)`. */
    method Disconnect(layer: ChannelLayer)
      modifies layer
      ensures groupName.Some? ==>
        layer.groups == old(layer.groups)[groupName.value := Members(old(layer.groups), groupName.value) - {channelName}]
      ensures groupName.None? ==> layer.groups == old(layer.groups)
      ensures groupName.Some? ==> channelName !in Members(layer.groups, groupName.value)
      ensures layer.sent == old(layer.sent)
    {
      if groupName.Some? {
        layer.GroupDiscard(groupName.value, channelName);
      }
    }

    /** `send_notification(event)`: one frame more for the client. */
    method SendNotification(event: map<string, Value>)
      modifies this`frames
      ensures frames == old(frames) + [Frame(event)]
    {
      var frame := map["event_type" := Lookup(event, "event_type"),
                       "status" := LookupOr(event, "status", Str("success")),
                       "payload" := LookupOr(event, "data", Dict(map[]))];
      frames := frames + [frame];
    }

    /** `receive(...)`: client input is ignored. */
    method Receive(textData: Option<string>)
      ensures unchanged(this)
    {
    }
  }

  /** The group a consumer joins for a user is the group a worker sends that
      user's notifications to, and no other user's. */
  lemma ConsumerAndSenderAgree(user: Id, other: Id)
    ensures GroupName(user) == GroupName(other) <==> user == other
  {
    GroupNameInjective(user, other);
  }
}
