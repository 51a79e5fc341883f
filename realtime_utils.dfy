/** The notification helpers of api/realtime/utils.py: the per-user group
    name that workers send to and consumers join, and the send of one
    notification to that group through the channel layer. The channel layer
    is an in-memory object: its groups' members and the messages sent to
    groups, in order. */
module RealtimeUtils {

  import opened Common
  import opened Text

  /** `get_user_group_name(user_id)`: "user_" followed by the decimal id. */
  function GroupName(userId: Id): (g: string)
    ensures |g| > 5 && g[..5] == "user_"
    ensures ParseNat(g[5..]) == Some(userId)
  {
    ParseNatToString(userId);
    "user_" + NatToString(userId)
  }

  /** Two users never share a group. */
  lemma GroupNameInjective(a: Id, b: Id)
    ensures GroupName(a) == GroupName(b) ==> a == b
  {
    if GroupName(a) == GroupName(b) {
      assert GroupName(a)[5..] == NatToString(a);
      assert GroupName(b)[5..] == NatToString(b);
      NatToStringInjective(a, b);
    }
  }

  /** A message sent to a group. */
  datatype GroupMessage = GroupMessage(group: string, message: map<string, Value>)

  /** The message `send_ws_notification` sends: its `type` names the
      consumer method that handles it. */
  function NotificationMessage(eventType: string, payload: map<string, Value>): (m: map<string, Value>)
    ensures m.Keys == {"type", "event_type", "data"}
    ensures m["type"] == Str("send_notification") && m["event_type"] == Str(eventType) && m["data"] == Dict(payload)
  {
    map["type" := Str("send_notification"), "event_type" := Str(eventType), "data" := Dict(payload)]
  }

  /** The members of a group (none for a group never joined). */
  function Members(groups: map<string, set<string>>, group: string): set<string>
  {
    if group in groups then groups[group] else {}
  }

  class ChannelLayer {
    var groups: map<string, set<string>>
    var sent: seq<GroupMessage>

    constructor ()
      ensures groups == map[] && sent == []
    {
      groups := map[];
      sent := [];
    }

    /** `group_add(group, channel)`. */
    method GroupAdd(group: string, channel: string)
      modifies this
      ensures groups == old(groups)[group := Members(old(groups), group) + {channel}]
      ensures sent == old(sent)
    {
      groups := groups[group := Members(groups, group) + {channel}];
    }

    /** `group_discard(group, channel)`. */
    method GroupDiscard(group: string, channel: string)
      modifies this
      ensures groups == old(groups)[group := Members(old(groups), group) - {channel}]
      ensures sent == old(sent)
    {
      groups := groups[group := Members(groups, group) - {channel}];
    }

    /** `group_send(group, message)`. */
    method GroupSend(group: string, message: map<string, Value>)
      modifies this
      ensures sent == old(sent) + [GroupMessage(group, message)]
      ensures groups == old(groups)
    {
      sent := sent + [GroupMessage(group, message)];
    }
  }

  /** `send_ws_notification(user_id, event_type, payload)`: nothing without a
      configured channel layer; otherwise one message to the user's group. */
  method SendWsNotification(layer: Option<ChannelLayer>, userId: Id, eventType: string, payload: map<string, Value>)
    modifies if layer.Some? then {layer.value} else {}
    ensures layer.Some? ==>
      layer.value.sent == old(layer.value.sent) + [GroupMessage(GroupName(userId), NotificationMessage(eventType, payload))]
      && layer.value.groups == old(layer.value.groups)
  {
    if layer.None? {
      // Only a warning is logged.
      return;
    }
    var group := GroupName(userId);
    layer.value.GroupSend(group, NotificationMessage(eventType, payload));
  }
}
