/** The event bus of api/messaging/tasks.py. A producer hands
    `publish_event` an event type and a payload (`Publication`); the
    publisher task then sends exactly one task named after the event type,
    with arguments `[event_type, payload]`, to the broker. The broker is an
    append-only sequence of sent tasks. */
module Messaging {

  import opened Common

  /** A call `publish_event.delay(event_type=..., payload=..., queue=...)`
      as a producer makes it (`queue` is None where the producer gives none). */
  datatype Publication = Publication(eventType: string, payload: map<string, Value>, queue: Option<string>)

  /** A task sent to the broker: its name and its positional arguments. */
  datatype SentTask = SentTask(name: string, args: seq<Value>)

  /** The worker task `publish_event` sends for an event. */
  function TaskFor(eventType: string, payload: map<string, Value>): (t: SentTask)
    ensures t.name == eventType
  {
    SentTask(eventType, [Str(eventType), Dict(payload)])
  }

  /** How a listener task reads its arguments `(event_type, payload)`. */
  function ListenerArgs(t: SentTask): Option<(string, map<string, Value>)>
  {
    if |t.args| == 2 && t.args[0].Str? && t.args[1].Dict? then Some((t.args[0].s, t.args[1].entries))
    else None
  }

  /** The listener receives exactly the event type and the payload that were
      published, and the worker task name (the broker's routing key) is that type. */
  lemma ListenerReceivesPublished(eventType: string, payload: map<string, Value>)
    ensures ListenerArgs(TaskFor(eventType, payload)) == Some((eventType, payload))
    ensures TaskFor(eventType, payload).name == ListenerArgs(TaskFor(eventType, payload)).value.0
  {
  }

  /** The tasks a sequence of publications sends, in order. */
  function TasksFor(ps: seq<Publication>): (ts: seq<SentTask>)
    ensures |ts| == |ps|
    ensures forall i | 0 <= i < |ps| :: ts[i] == TaskFor(ps[i].eventType, ps[i].payload)
  {
    if ps == [] then [] else [TaskFor(ps[0].eventType, ps[0].payload)] + TasksFor(ps[1..])
  }

  /** The broker. */
  class EventBus {
    var sent: seq<SentTask>

    constructor ()
      ensures sent == []
    {
      sent := [];
    }

    /** `publish_event(event_type, payload)`: one more task, the earlier
        ones untouched. */
    method PublishEvent(eventType: string, payload: map<string, Value>)
      modifies this
      ensures sent == old(sent) + [TaskFor(eventType, payload)]
    {
      sent := sent + [SentTask(eventType, [Str(eventType), Dict(payload)])];
    }

    /** Delivers a producer's publications, one `publish_event` each. */
    method Deliver(ps: seq<Publication>)
      modifies this
      ensures sent == old(sent) + TasksFor(ps)
    {
      var i := 0;
      while i < |ps|
        invariant 0 <= i <= |ps|
        invariant sent == old(sent) + TasksFor(ps[..i])
      {
        assert TasksFor(ps[..i + 1]) == TasksFor(ps[..i]) + [TaskFor(ps[i].eventType, ps[i].payload)];
        PublishEvent(ps[i].eventType, ps[i].payload);
        i := i + 1;
      }
      assert ps[..i] == ps;
    }
  }
}
