/**
 * The Engine's container events and the allowlisted projection of them that
 * reaches a client (internal/dockerx/events.go).
 */
module ContainerEvents {
  import opened Prelude

  /** An Engine timestamp: nanoseconds when present, else seconds, else nothing. */
  datatype Stamp = Nanos(n: int) | Seconds(s: int) | NoStamp

  /** The Engine's message. `attributes` is the container's label set. */
  datatype Message = Message(
    kind: string, action: string, actorId: string, attributes: map<string, string>,
    timeNano: int, time: int)

  datatype ContainerEvent = ContainerEvent(
    id: string, name: string, event: string, health: string, time: Stamp)

  const HEALTHY_ACTION := "health_status: healthy"
  const UNHEALTHY_ACTION := "health_status: unhealthy"

  const EVENT_ACTIONS: map<string, string> :=
    map[
      HEALTHY_ACTION := "health_status",
      UNHEALTHY_ACTION := "health_status",
      "die" := "die",
      "start" := "start",
      "stop" := "stop",
      "oom" := "oom"
    ]

  const EVENT_HEALTH: map<string, string> :=
    map[HEALTHY_ACTION := "healthy", UNHEALTHY_ACTION := "unhealthy"]

  function TrimContainerName(name: string): string {
    if |name| > 0 && name[0] == '/' then name[1..] else name
  }

  function EventTime(msg: Message): Stamp {
    if msg.timeNano != 0 then Nanos(msg.timeNano)
    else if msg.time != 0 then Seconds(msg.time)
    else NoStamp
  }

  /** Projects an Engine message; None for everything outside the allowlist. */
  function ToContainerEvent(msg: Message): Option<ContainerEvent> {
    if msg.kind != "container" || msg.action !in EVENT_ACTIONS then None
    else
      Some(ContainerEvent(
             msg.actorId,
             TrimContainerName(if "name" in msg.attributes then msg.attributes["name"] else ""),
             EVENT_ACTIONS[msg.action],
             if msg.action in EVENT_HEALTH then EVENT_HEALTH[msg.action] else "",
             EventTime(msg)))
  }

  /** What a subscription that is fed `msgs` in order emits. */
  function Project(msgs: seq<Message>): seq<ContainerEvent> {
    if msgs == [] then []
    else
      var before := Project(msgs[..|msgs| - 1]);
      match ToContainerEvent(msgs[|msgs| - 1])
      case None => before
      case Some(ev) => before + [ev]
  }

  lemma ProjectSnoc(msgs: seq<Message>, msg: Message)
    ensures Project(msgs + [msg]) ==
            match ToContainerEvent(msg)
            case None => Project(msgs)
            case Some(ev) => Project(msgs) + [ev]
  {
    assert (msgs + [msg])[..|msgs|] == msgs;
  }

  /** A feed read in two parts emits what the two parts emit, in order. */
  lemma {:induction false} ProjectConcat(a: seq<Message>, b: seq<Message>)
    ensures Project(a + b) == Project(a) + Project(b)
  {
    if b == [] {
      assert a + b == a;
    } else {
      var b0, last := b[..|b| - 1], b[|b| - 1];
      assert a + b == (a + b0) + [last];
      assert b == b0 + [last];
      ProjectConcat(a, b0);
      ProjectSnoc(a + b0, last);
      ProjectSnoc(b0, last);
    }
  }

  /**
   * The allowlist in full: four lifecycle actions under their own names and the two exact health
   * actions, of containers only. A health action that goes on with a check's output is not one.
   */
  lemma AllowlistExact(msg: Message)
    ensures ToContainerEvent(msg).Some? <==>
              && msg.kind == "container"
              && (msg.action in {"die", "start", "stop", "oom"}
                  || msg.action == "health_status: healthy" || msg.action == "health_status: unhealthy")
    ensures ToContainerEvent(msg).Some? ==>
              var ev := ToContainerEvent(msg).value;
              && ev.id == msg.actorId
              && (msg.action in {"die", "start", "stop", "oom"} ==> ev.event == msg.action && ev.health == "")
              && (msg.action == "health_status: healthy" ==> ev.event == "health_status" && ev.health == "healthy")
              && (msg.action == "health_status: unhealthy" ==> ev.event == "health_status" && ev.health == "unhealthy")
              && ev.time == if msg.timeNano != 0 then Nanos(msg.timeNano)
                            else if msg.time != 0 then Seconds(msg.time) else NoStamp
  {
  }

  /** Of the labels only "name" is ever read, less the one slash that may lead it. */
  lemma OnlyTheName(msg: Message, labels: map<string, string>)
    requires ("name" in labels <==> "name" in msg.attributes)
    requires "name" in labels ==> labels["name"] == msg.attributes["name"]
    ensures ToContainerEvent(msg.(attributes := labels)) == ToContainerEvent(msg)
    ensures ToContainerEvent(msg).Some? ==>
              var name := ToContainerEvent(msg).value.name;
              if "name" !in labels then name == ""
              else if labels["name"] != "" && labels["name"][0] == '/' then "/" + name == labels["name"]
              else name == labels["name"]
  {
  }
}
