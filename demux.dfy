/**
 * What `_multiplex` does with one inbound frame, as a function of the topics in
 * `band`, the retry queue `_queue` and the frame text.
 */
module Demux {
  import opened Wrappers
  import opened Json
  import Wire

  /** The two reserved system topics. */
  const Registrations: string := "/REGISTRATIONS"
  const ClientActions: string := "/CLIENT_ACTIONS"

  /** The payload substituted for one that is not JSON. */
  const InvalidPayload: Json :=
    JObj(map["message" := JStr("ERROR: invalid payload. Payload must be stringified JSON.")])

  /** The property name `band[topic]` looks up: a missing topic is the key "undefined". */
  function BandKey(topic: Option<string>): string {
    match topic
    case Some(t) => t
    case None => "undefined"
  }

  /** The frame type and body after the `try { JSON.parse } catch` step. */
  datatype Inbound = Inbound(kind: string, body: Json)

  /** A payload that does not parse turns the frame into an `err` with the fixed message. */
  function Interpret(kind: string, payload: string, parse: JsonParser): Inbound {
    match parse(payload)
    case Some(v) => Inbound(kind, v)
    case None => Inbound("err", InvalidPayload)
  }

  /** `Emit(e, p)` broadcasts event `e` (with the body when `p`); `Requeue` pushes the topic on `_queue`. */
  datatype Reaction = Emit(event: string, withBody: bool) | Requeue | Ignore

  /** The `switch(type)` of `_multiplex`. */
  function ReactionTo(kind: string): Reaction {
    if kind == "uns" then Emit("close", false)
    else if kind == "conn" then Emit("connection", true)
    else if kind == "msg" then Emit("message", true)
    else if kind == "res" then Emit("response", true)
    else if kind == "err" then Emit("error", true)
    else if kind == "rej" then Requeue
    else Ignore
  }

  /** The type codes and what each does; every other code does nothing. */
  lemma ReactionTable(kind: string)
    ensures ReactionTo(kind).Emit? <==> kind in {"uns", "conn", "msg", "res", "err"}
    ensures ReactionTo(kind) == Requeue <==> kind == "rej"
    ensures kind == "uns" ==> ReactionTo(kind) == Emit("close", false)
    ensures kind == "conn" ==> ReactionTo(kind) == Emit("connection", true)
    ensures kind == "msg" ==> ReactionTo(kind) == Emit("message", true)
    ensures kind == "res" ==> ReactionTo(kind) == Emit("response", true)
    ensures kind == "err" ==> ReactionTo(kind) == Emit("error", true)
  {
  }

  /** lodash `pull(queue, x)`: every occurrence of `x` removed, the rest in order. */
  function Pull(queue: seq<string>, x: string): (r: seq<string>)
    ensures x !in r
  {
    if queue == [] then []
    else if queue[0] == x then Pull(queue[1..], x)
    else [queue[0]] + Pull(queue[1..], x)
  }

  /** `pull` keeps the count of every other entry and removes all copies of `x`. */
  lemma {:induction false} PullCounts(queue: seq<string>, x: string)
    ensures multiset(Pull(queue, x)) == multiset(queue)[x := 0]
  {
    if queue != [] {
      PullCounts(queue[1..], x);
      assert queue == [queue[0]] + queue[1..];
    }
  }

  /** Pulling an absent entry changes nothing. */
  lemma {:induction false} PullAbsent(queue: seq<string>, x: string)
    requires x !in queue
    ensures Pull(queue, x) == queue
  {
    if queue != [] {
      PullAbsent(queue[1..], x);
      assert queue == [queue[0]] + queue[1..];
    }
  }

  /** Outcome of a registration notice: the new queue, and the topic to subscribe again. */
  datatype Notice = Notice(queue: seq<string>, resubscribe: Option<string>)

  /**
   * The corrected handling of a `{"registered": topic}` notice: if the topic is
   * queued, send its subscribe frame again and pull every copy of it from the queue.
   */
  function AcceptRegistration(queue: seq<string>, registered: Option<string>): Notice {
    if registered.Some? && registered.value in queue
    then Notice(Pull(queue, registered.value), registered)
    else Notice(queue, None)
  }

  /** A notice resubscribes exactly when its topic was queued, and then leaves no copy in the queue. */
  lemma AcceptRegistrationMeaning(queue: seq<string>, registered: Option<string>)
    ensures var n := AcceptRegistration(queue, registered);
      && (n.resubscribe.Some? <==> registered.Some? && registered.value in queue)
      && (n.resubscribe.Some? ==>
            && n.resubscribe == registered
            && registered.value !in n.queue
            && multiset(n.queue) == multiset(queue)[registered.value := 0])
      && (n.resubscribe.None? ==> n.queue == queue)
  {
    if registered.Some? && registered.value in queue {
      PullCounts(queue, registered.value);
    }
  }

  /**
   * The registration branch as written: `let payload = JSON.parse(payload)`
   * reads the block's own `payload` before it is initialised, so it throws
   * (`None`) for every notice and the queue is never touched.
   */
  function AcceptRegistrationAsWritten(queue: seq<string>, payload: string): Option<Notice> {
    None
  }

  /** The concrete case: `chat` is queued and the notice names it, yet nothing is resubscribed. */
  lemma RegistrationAsWrittenThrows(parse: JsonParser)
    requires parse("{\"registered\":\"chat\"}") == Some(JObj(map["registered" := JStr("chat")]))
    ensures AcceptRegistrationAsWritten(["chat"], "{\"registered\":\"chat\"}") == None
    ensures AcceptRegistration(["chat"], StringField(parse("{\"registered\":\"chat\"}"), "registered"))
      == Notice([], Some("chat"))
  {
    assert StringField(parse("{\"registered\":\"chat\"}"), "registered") == Some("chat");
    assert Pull(["chat"], "chat") == Pull([], "chat");
  }

  /**
   * The effect of one frame. `Dropped`: unknown topic. `Aborted`: the
   * registration notice threw. `Handled`: the new queue, the topic to
   * resubscribe, the interpreted frame and the reaction to its type.
   */
  datatype Outcome =
    | Dropped
    | Aborted
    | Handled(key: string, queue: seq<string>, resubscribe: Option<string>, inbound: Inbound, reaction: Reaction)

  /** `_multiplex` on one frame. */
  function Route(topics: set<string>, queue: seq<string>, data: string, parse: JsonParser): (o: Outcome)
    ensures o.Handled? ==> o.key in topics
    ensures o.Handled? && o.reaction == Requeue ==> Wire.Decode(data).topic == Some(o.key)
  {
    var f := Wire.Decode(data);
    var key := BandKey(f.topic);
    if key !in topics then Dropped
    else
      var notice :=
        if f.topic == Some(Registrations) then
          match parse(f.payload)
          case None => None
          case Some(JNull) => None
          case Some(v) => Some(AcceptRegistration(queue, StringField(Some(v), "registered")))
        else Some(Notice(queue, None));
      if notice.None? then Aborted
      else
        var inbound := Interpret(f.kind, f.payload, parse);
        var reaction := ReactionTo(inbound.kind);
        var q := if reaction == Requeue then notice.value.queue + [key] else notice.value.queue;
        Handled(key, q, notice.value.resubscribe, inbound, reaction)
  }

  /**
   * A registration notice aborts the frame exactly when its payload is not
   * JSON (the parse throws) or is `null` (reading `registered` of it throws):
   * then nothing is broadcast and the queue stays. Any other payload is handled.
   */
  lemma NullNoticeAborts(topics: set<string>, queue: seq<string>, data: string, parse: JsonParser)
    requires Wire.Decode(data).topic == Some(Registrations) && Registrations in topics
    ensures Route(topics, queue, data, parse) == Aborted <==>
      parse(Wire.Decode(data).payload) in {None, Some(JNull)}
  {
  }

  /** A frame for a topic that has no Frequency is dropped: no broadcast, queue unchanged. */
  lemma UnknownTopicDropped(topics: set<string>, queue: seq<string>, data: string, parse: JsonParser)
    requires BandKey(Wire.Decode(data).topic) !in topics
    ensures Route(topics, queue, data, parse) == Dropped
  {
  }

  /** A payload that is not JSON is delivered as an `error` event carrying the fixed message. */
  lemma InvalidPayloadIsError(topics: set<string>, queue: seq<string>, data: string, parse: JsonParser)
    requires parse(Wire.Decode(data).payload).None?
    requires Route(topics, queue, data, parse).Handled?
    ensures Route(topics, queue, data, parse).inbound == Inbound("err", InvalidPayload)
    ensures Route(topics, queue, data, parse).reaction == Emit("error", true)
  {
  }

  /** A frame without a topic has an empty payload, so it is always an error, never a retry. */
  lemma TopiclessFrameIsError(topics: set<string>, queue: seq<string>, data: string, parse: JsonParser)
    requires Wire.Decode(data).topic.None?
    requires Route(topics, queue, data, parse).Handled?
    ensures Route(topics, queue, data, parse).reaction == Emit("error", true)
  {
  }

  /**
   * A frame built by `joinAndSend(kind, topic, payload)` for a registered,
   * non-reserved topic reaches that topic with its type and parsed payload.
   */
  lemma EncodedFrameReachesTopic(topics: set<string>, queue: seq<string>, kind: string, topic: string,
                                 payload: string, parse: JsonParser)
    requires Wire.Separator !in kind && Wire.Separator !in topic
    requires topic in topics && topic != Registrations
    requires parse(payload).Some?
    ensures var o := Route(topics, queue, Wire.Encode([kind, topic, payload]), parse);
      && o.Handled? && o.key == topic && o.resubscribe.None?
      && o.inbound == Inbound(kind, parse(payload).value)
      && o.reaction == ReactionTo(kind)
      && o.queue == (if kind == "rej" then queue + [topic] else queue)
  {
    Wire.DecodeEncode(kind, topic, payload);
  }

  /**
   * A frame with an empty payload never parses, so whatever its type it is
   * delivered as an `error`: a bare `rej,<topic>` does not queue the topic and
   * a bare `uns,<topic>` does not close the Frequency.
   */
  lemma EmptyPayloadIsError(topics: set<string>, queue: seq<string>, kind: string, topic: string, parse: JsonParser)
    requires Wire.Separator !in kind && Wire.Separator !in topic
    requires topic in topics && topic != Registrations
    ensures var o := Route(topics, queue, Wire.Encode([kind, topic]), parse);
      o == Handled(topic, queue, None, Inbound("err", InvalidPayload), Emit("error", true))
    ensures var o := Route(topics, queue, Wire.Encode([kind, topic, ""]), parse);
      o == Handled(topic, queue, None, Inbound("err", InvalidPayload), Emit("error", true))
  {
    Wire.DecodeEncodePair(kind, topic);
    Wire.DecodeEncode(kind, topic, "");
  }

  /**
   * While `/REGISTRATIONS` has no Frequency, no frame resubscribes anything and
   * the queue only ever grows by the frame's own topic on `rej`.
   */
  lemma RetryQueueOnlyGrows(topics: set<string>, queue: seq<string>, data: string, parse: JsonParser)
    requires Registrations !in topics
    ensures var o := Route(topics, queue, data, parse);
      o.Handled? ==> o.resubscribe.None? && o.queue == (if o.reaction == Requeue then queue + [o.key] else queue)
    ensures Route(topics, queue, data, parse) != Aborted
  {
  }
}
