/**
 * The client (`ConduxClient`), its per-topic Frequencies and a reconnection
 * run, as objects updated in place. The three classes refer to each other,
 * so they share this module.
 *
 * Side effects on the outside world are recorded in fields of the client:
 * `outbox` holds the frames written to the socket, `awaiting` the frames
 * whose write waits for the connection promise, `timers` the broadcasts
 * deferred with `setTimeout(..., 0)`, and `hookLog` the lifecycle hooks
 * called, by option name.
 */
module Condux {
  import opened Wrappers
  import opened Json
  import opened Persistence
  import opened Subscribers
  import opened Snapshots
  import Wire
  import Retry
  import Demux

  /** A deferred `frequency.broadcast(event, payload)`. */
  datatype Task = Task(target: Frequency, event: string, payload: Option<Json>)

  /** Where frames go when written through the connection promise. */
  function Post(outbox: seq<string>, awaiting: seq<string>, connecting: bool, frames: seq<string>)
    : (r: (seq<string>, seq<string>))
    ensures connecting ==> r.0 == outbox && r.1 == awaiting + frames
    ensures !connecting ==> r.0 == outbox + frames && r.1 == awaiting
  {
    if connecting then (outbox, awaiting + frames) else (outbox + frames, awaiting)
  }

  /** The frames of several writes, in call order. */
  function Concat(calls: seq<seq<string>>): seq<string> {
    if calls == [] then [] else Concat(calls[..|calls| - 1]) + calls[|calls| - 1]
  }

  /** Successive writes through the connection promise, oldest first. */
  function PostAll(outbox: seq<string>, awaiting: seq<string>, connecting: bool, calls: seq<seq<string>>)
    : (seq<string>, seq<string>)
  {
    if calls == [] then (outbox, awaiting)
    else
      var r := PostAll(outbox, awaiting, connecting, calls[..|calls| - 1]);
      Post(r.0, r.1, connecting, calls[|calls| - 1])
  }

  /**
   * Within one connection attempt, writes keep their call order. While
   * connecting none reaches the socket and all wait, in order, behind the
   * frames already waiting, which `Opened` flushes in that order if this
   * attempt's socket opens; a later `connect()` strands them instead. Once
   * connected, with nothing waiting, they reach the socket in order.
   */
  lemma {:induction false} PostKeepsOrder(outbox: seq<string>, awaiting: seq<string>, connecting: bool,
                                          calls: seq<seq<string>>)
    requires connecting || awaiting == []
    ensures var r := PostAll(outbox, awaiting, connecting, calls);
      && r.0 + r.1 == outbox + awaiting + Concat(calls)
      && (connecting ==> r.0 == outbox)
      && (!connecting ==> r.1 == [])
  {
    if calls != [] {
      var front := calls[..|calls| - 1];
      var last := calls[|calls| - 1];
      PostKeepsOrder(outbox, awaiting, connecting, front);
      var r := PostAll(outbox, awaiting, connecting, front);
      assert Concat(calls) == Concat(front) + last;
      if connecting {
        assert r.0 + (r.1 + last) == (r.0 + r.1) + last;
      } else {
        assert (r.0 + last) + r.1 == (r.0 + r.1) + last;
      }
    }
  }

  /** What `registerFrequency(topic)` does given the topics already in `band`. */
  datatype Registration = Existing | Refused | Created

  /** An existing Frequency is returned, a reserved name refused, any other name created. */
  function RegistrationOf(topics: set<string>, topic: string): Registration {
    if topic in topics then Existing
    else if topic == Demux.ClientActions || topic == Demux.Registrations then Refused
    else Created
  }

  /** The topics in `band` after `registerFrequency(topic)`. */
  function TopicsAfter(topics: set<string>, topic: string): set<string> {
    if RegistrationOf(topics, topic) == Created then topics + {topic} else topics
  }

  /**
   * Registering is idempotent and never admits a reserved name: a second call
   * for the same topic finds the first one's Frequency and adds nothing.
   */
  lemma RegistrationIdempotent(topics: set<string>, topic: string)
    requires Demux.Registrations !in topics && Demux.ClientActions !in topics
    ensures RegistrationOf(TopicsAfter(topics, topic), topic) != Created
    ensures TopicsAfter(TopicsAfter(topics, topic), topic) == TopicsAfter(topics, topic)
    ensures Demux.Registrations !in TopicsAfter(topics, topic) && Demux.ClientActions !in TopicsAfter(topics, topic)
    ensures RegistrationOf(topics, topic) == Refused <==> topic in {Demux.Registrations, Demux.ClientActions}
  {
  }

  /**
   * `registerFrequency` as written: `new Frequency` throws (`None`) before
   * `band[topic]` is assigned. `nexus.connected` is a boolean getter, so
   * `nexus.connected.then(...)` is a TypeError; earlier still, the missing comma
   * after `version = -1` ends the `var` declaration, so `history = [], socket =
   * ..., defaults = ...` assigns undeclared names, which module (strict) code
   * refuses.
   */
  function RegistrationAsWritten(topics: set<string>, topic: string): Option<Registration> {
    if topic in topics then Some(Existing)
    else if topic == Demux.ClientActions || topic == Demux.Registrations then Some(Refused)
    else None
  }

  /** As written, no topic is ever created: a fresh `chat` throws where it should be registered. */
  lemma RegistrationAsWrittenNeverCreates(topics: set<string>, topic: string)
    ensures RegistrationAsWritten(topics, topic) != Some(Created)
    ensures RegistrationAsWritten({}, "chat") == None && RegistrationOf({}, "chat") == Created
  {
  }

  class Client {
    /** `JSON.parse`. */
    const parse: JsonParser
    /** The current persistence options `p`. */
    var persistence: Options
    /** The registry of Frequencies by topic. */
    var band: map<string, Frequency>
    /** `_queue`: topics the server rejected, waiting for a registration notice. */
    var queue: seq<string>
    /** The module-level `connecting` flag. */
    var connecting: bool
    /** Frames written to the socket, in order. */
    var outbox: seq<string>
    /** Frames waiting for the current connection attempt to open. */
    var awaiting: seq<string>
    /** Frames that waited for an earlier attempt, superseded by a later `connect()`; they are never written. */
    ghost var stranded: seq<string>
    var timers: seq<Task>
    var hookLog: seq<string>

    /** Every Frequency in `band` is filed under its own topic and every pending broadcast targets one of this client's Frequencies. */
    ghost predicate Wired()
      reads this`band, this`timers
    {
      && (forall t :: t in band ==> band[t].topic == t && band[t].nexus == this)
      && (forall i :: 0 <= i < |timers| ==> timers[i].target.nexus == this)
    }

    /** The registry invariant: besides being wired, `band` never holds a reserved topic. */
    ghost predicate Valid()
      reads this`band, this`timers
    {
      Wired() && Demux.Registrations !in band && Demux.ClientActions !in band
    }

    /**
     * `new ConduxClient(url, persistence)`: the options are the defaults
     * overridden by the supplied ones (restricted to the default keys), the
     * registry and the queue are empty, and `connect()` runs.
     */
    constructor (parse: JsonParser, options: Options)
      ensures Valid()
      ensures this.parse == parse && persistence == Update(Defaults(), options)
      ensures band == map[] && queue == [] && connecting
      ensures outbox == [] && awaiting == [] && stranded == [] && timers == [] && hookLog == ["onConnecting"]
    {
      this.parse := parse;
      persistence := Update(Defaults(), options);
      band := map[];
      queue := [];
      connecting := false;
      outbox := [];
      awaiting := [];
      stranded := [];
      timers := [];
      hookLog := [];
      new;
      Connect();
    }

    /** Calls the lifecycle hook stored under option `name`. */
    method CallHook(name: string)
      modifies this`hookLog
      ensures hookLog == old(hookLog) + [name]
    {
      hookLog := hookLog + [name];
    }

    /**
     * `connect()`: calls `onConnecting`, raises `connecting` and opens a new
     * socket with a new connection promise. Frames still waiting were chained
     * on the previous promise, whose socket is superseded: they are stranded.
     */
    method Connect()
      modifies this`connecting, this`hookLog, this`awaiting, this`stranded
      ensures connecting && hookLog == old(hookLog) + ["onConnecting"]
      ensures awaiting == [] && stranded == old(stranded) + old(awaiting)
    {
      CallHook("onConnecting");
      connecting := true;
      stranded := stranded + awaiting;
      awaiting := [];
    }

    /**
     * The connection promise resolves: `connecting` drops, the frames that
     * waited for it are written in order, then the two system subscriptions,
     * then `onConnection` is called. An attempt's promise resolves once, while
     * `connecting` is still raised by its `connect()`.
     */
    method Opened()
      requires connecting
      modifies this`connecting, this`outbox, this`awaiting, this`hookLog
      ensures !connecting && awaiting == []
      ensures outbox == old(outbox) + old(awaiting)
        + [Wire.Encode(["sub", Demux.ClientActions]), Wire.Encode(["sub", Demux.Registrations])]
      ensures hookLog == old(hookLog) + ["onConnection"]
    {
      connecting := false;
      outbox := outbox + awaiting;
      awaiting := [];
      JoinAndSend(["sub", Demux.ClientActions]);
      JoinAndSend(["sub", Demux.Registrations]);
      CallHook("onConnection");
    }

    /** `joinAndSend(...fields)`: the encoded frame is written once the connection promise has resolved. */
    method JoinAndSend(fields: seq<string>)
      modifies this`outbox, this`awaiting
      ensures (outbox, awaiting) == Post(old(outbox), old(awaiting), connecting, [Wire.Encode(fields)])
    {
      var frame := Wire.Encode(fields);
      if connecting {
        awaiting := awaiting + [frame];
      } else {
        outbox := outbox + [frame];
      }
    }

    /** A direct `socket.send(frame)`. */
    method Transmit(frame: string)
      modifies this`outbox
      ensures outbox == old(outbox) + [frame]
    {
      outbox := outbox + [frame];
    }

    /**
     * `updatePersistence(options)`: the supplied values win for the existing
     * keys only; a changed `onConnecting` is called at once while connecting.
     */
    method UpdatePersistence(options: Options) returns (p: Options)
      modifies this`persistence, this`hookLog
      ensures p == persistence && persistence == Update(old(persistence), options)
      ensures persistence.Keys == old(persistence).Keys
      ensures hookLog == old(hookLog) +
        (if connecting && Differs(Get(old(persistence), "onConnecting"), Get(persistence, "onConnecting"))
         then ["onConnecting"] else [])
    {
      var previous := Get(persistence, "onConnecting");
      persistence := Update(persistence, options);
      UpdateMeaning(old(persistence), options);
      if Differs(previous, Get(persistence, "onConnecting")) && connecting {
        CallHook("onConnecting");
      }
      p := persistence;
    }

    /**
     * `reconnect()`: does nothing while connecting; otherwise starts a run
     * whose budget is the `attempts` option, with the first attempt scheduled.
     */
    method Reconnect() returns (r: Reconnection?)
      ensures connecting ==> r == null
      ensures !connecting ==> r != null && fresh(r) && r.client == this && r.Valid() && !r.reconnected
      ensures !connecting ==> r.State() == Retry.Start(Retry.Budget(Get(persistence, "attempts")))
    {
      if connecting {
        return null;
      }
      r := new Reconnection(this, Retry.Budget(Get(persistence, "attempts")));
    }

    /**
     * `_multiplex(e)` on the frame text `data`: the frame goes to the
     * Frequency of its topic as `Demux.Route` describes, with the registration
     * branch in its corrected form.
     */
    method Multiplex(data: string)
      requires Wired()
      modifies this`queue, this`timers, this`outbox, this`awaiting
      ensures Wired()
      ensures match Demux.Route(band.Keys, old(queue), data, parse)
        case Dropped =>
          queue == old(queue) && timers == old(timers) && outbox == old(outbox) && awaiting == old(awaiting)
        case Aborted =>
          queue == old(queue) && timers == old(timers) && outbox == old(outbox) && awaiting == old(awaiting)
        case Handled(key, q, resubscribe, inbound, reaction) =>
          && key in band
          && queue == q
          && timers == old(timers) +
               (if reaction.Emit?
                then [Task(band[key], reaction.event, if reaction.withBody then Some(inbound.body) else None)]
                else [])
          && (outbox, awaiting) == Post(old(outbox), old(awaiting), connecting,
               if resubscribe.Some? then [Wire.Encode(["sub", resubscribe.value])] else [])
    {
      match Demux.Route(band.Keys, queue, data, parse)
      case Dropped =>
      case Aborted =>
      case Handled(key, q, resubscribe, inbound, reaction) =>
        if resubscribe.Some? {
          JoinAndSend(["sub", resubscribe.value]);
        } else {
          assert outbox + [] == outbox && awaiting + [] == awaiting;
        }
        queue := q;
        if reaction.Emit? {
          timers := timers + [Task(band[key], reaction.event, if reaction.withBody then Some(inbound.body) else None)];
        }
    }

    /** The topics of `band` relate to `before` as `registerFrequency(topic)` returning `f` requires. */
    ghost predicate RegisteredAs(before: map<string, Frequency>, topic: string, f: Frequency?)
      reads this`band
    {
      match RegistrationOf(before.Keys, topic)
      case Existing => topic in before && f == before[topic] && band == before
      case Refused => f == null && band == before
      case Created => f != null && band == before[topic := f]
    }

    /**
     * `registerFrequency(topic, options)`, with `combine` the update function
     * the options select and `ownToken` the key of the Frequency's own listener.
     */
    method RegisterFrequency(topic: string, combine: Combine, ownToken: Token) returns (f: Frequency?)
      requires Valid()
      modifies this`band, this`outbox, this`awaiting
      ensures Valid() && RegisteredAs(old(band), topic, f)
      ensures RegistrationOf(old(band).Keys, topic) != Created ==> outbox == old(outbox) && awaiting == old(awaiting)
      ensures RegistrationOf(old(band).Keys, topic) == Created ==>
        && f != null && fresh(f) && f.Valid()
        && f.topic == topic && f.combine == combine
        && f.datastream == EmptyObject && f.version == -1 && f.history == []
        && f.listeners == map[ownToken := Own] && f.deliveries == []
        && (outbox, awaiting) == Post(old(outbox), old(awaiting), connecting, [Wire.Encode(["sub", topic])])
    {
      if topic in band {
        return band[topic];
      }
      if topic == Demux.ClientActions || topic == Demux.Registrations {
        return null;
      }
      f := new Frequency(topic, this, combine, ownToken);
      band := band[topic := f];
    }

    /** `Hz(topic, options)`: the alias of `registerFrequency`. */
    method Hz(topic: string, combine: Combine, ownToken: Token) returns (f: Frequency?)
      requires Valid()
      modifies this`band, this`outbox, this`awaiting
      ensures Valid() && RegisteredAs(old(band), topic, f)
      ensures RegistrationOf(old(band).Keys, topic) != Created ==> outbox == old(outbox) && awaiting == old(awaiting)
      ensures RegistrationOf(old(band).Keys, topic) == Created ==>
        && f != null && fresh(f) && f.Valid()
        && f.topic == topic && f.combine == combine
        && f.datastream == EmptyObject && f.version == -1 && f.history == []
        && f.listeners == map[ownToken := Own] && f.deliveries == []
        && (outbox, awaiting) == Post(old(outbox), old(awaiting), connecting, [Wire.Encode(["sub", topic])])
    {
      f := RegisterFrequency(topic, combine, ownToken);
    }

    /** The event loop runs the oldest deferred broadcast (`_broadcast`'s `setTimeout` callback). */
    method RunTimer()
      requires Valid() && |timers| > 0 && timers[0].target.Valid()
      modifies this`timers, this`band, this`outbox
      modifies timers[0].target`history, timers[0].target`version, timers[0].target`datastream
      modifies timers[0].target`updates, timers[0].target`deliveries
      ensures Valid() && old(timers[0].target).Valid()
      ensures timers == old(timers)[1..]
      ensures var t := old(timers[0]);
        t.target.BroadcastFrom(t.event, t.payload, old(t.target.updates), old(t.target.deliveries), old(band), old(outbox))
    {
      var task := timers[0];
      timers := timers[1..];
      task.target.Broadcast(task.event, task.payload);
    }
  }

  /** Registering the same topic twice yields the same Frequency (none at all for a reserved name). */
  method RegisterTwice(c: Client, topic: string, combine: Combine, first: Token, second: Token)
    returns (f: Frequency?, g: Frequency?)
    requires c.Valid()
    modifies c`band, c`outbox, c`awaiting
    ensures c.Valid() && f == g
    ensures f == null <==> topic == Demux.Registrations || topic == Demux.ClientActions
    ensures f != null ==> topic in c.band && c.band[topic] == f
  {
    f := c.RegisterFrequency(topic, combine, first);
    g := c.RegisterFrequency(topic, combine, second);
  }

  class Frequency {
    const topic: string
    /** The client that owns this Frequency; its `band` is the shared registry. */
    const nexus: Client
    /** `options.merge ? options.mergeWith : options.updateWith`. */
    const combine: Combine
    var datastream: Json
    var version: int
    var history: seq<Json>
    /** The data passed to `_handleStream_` so far. */
    ghost var updates: seq<Json>
    /** `_listeners_`. */
    var listeners: map<Token, Listener>
    /** The listener callbacks invoked so far. */
    var deliveries: seq<Delivery>

    /**
     * The snapshot is the fold of the updates, `history` holds the snapshot
     * before each update, `version` counts updates from -1, and the table
     * holds at most one own listener.
     */
    ghost predicate Valid()
      reads this`datastream, this`version, this`history, this`updates, this`listeners
      ensures Valid() ==> |history| == version + 1
    {
      && datastream == Replay(combine, EmptyObject, updates)
      && history == Trail(combine, EmptyObject, updates)
      && version == |updates| - 1
      && SingleOwn(listeners)
    }

    /**
     * `new Frequency(topic, nexus, options)` with the subscription written once
     * the connection promise resolves (the corrected form of the constructor's
     * last statement).
     */
    constructor (topic: string, nexus: Client, combine: Combine, ownToken: Token)
      modifies nexus`outbox, nexus`awaiting
      ensures Valid()
      ensures this.topic == topic && this.nexus == nexus && this.combine == combine
      ensures datastream == EmptyObject && version == -1 && history == [] && updates == []
      ensures listeners == map[ownToken := Own] && deliveries == []
      ensures (nexus.outbox, nexus.awaiting)
        == Post(old(nexus.outbox), old(nexus.awaiting), nexus.connecting, [Wire.Encode(["sub", topic])])
    {
      this.topic := topic;
      this.nexus := nexus;
      this.combine := combine;
      datastream := EmptyObject;
      version := -1;
      history := [];
      updates := [];
      listeners := map[ownToken := Own];
      deliveries := [];
      new;
      nexus.JoinAndSend(["sub", topic]);
    }

    /** `history(index)`: the stored snapshot, or `undefined` outside the stored range. */
    function History(index: int): (r: Option<Json>)
      reads this`history
      ensures r.Some? <==> 0 <= index < |history|
    {
      if 0 <= index < |history| then Some(history[index]) else None
    }

    /** Entry `i` of `history` is the snapshot after the first `i` updates; index 0 is the initial `{}`. */
    lemma HistoryIsSnapshot(i: int)
      requires Valid() && 0 <= i <= version
      ensures History(i) == Some(Replay(combine, EmptyObject, updates[..i]))
      ensures i == 0 ==> History(i) == Some(EmptyObject)
    {
      TrailAt(combine, EmptyObject, updates, i);
    }

    /** `_handleStream_(newData)`: the old snapshot goes to the end of `history` and the update function's truthy result replaces it. */
    method HandleStream(newData: Json)
      requires Valid()
      modifies this`history, this`version, this`datastream, this`updates
      ensures Valid()
      ensures history == old(history) + [old(datastream)]
      ensures version == old(version) + 1
      ensures datastream == Step(combine, old(datastream), newData)
      ensures updates == old(updates) + [newData]
    {
      Snoc(combine, EmptyObject, updates, newData);
      history := history + [datastream];
      version := version + 1;
      var r := combine(datastream, newData);
      datastream := if Truthy(r) then r else datastream;
      updates := updates + [newData];
    }

    /**
     * `addListener(listener)`: stores it under `token` and calls its
     * `onConnection` with the current snapshot (the corrected hydration).
     */
    method AddListener(token: Token, handlers: Handlers) returns (t: Token)
      requires Valid()
      modifies this`listeners, this`deliveries
      ensures Valid() && t == token
      ensures listeners == old(listeners)[token := External(handlers)]
      ensures deliveries == old(deliveries) +
        (if handlers.onConnection then [Delivery(token, Callback.OnConnection, [HydrationArgument(datastream).value])] else [])
    {
      listeners := listeners[token := External(handlers)];
      if handlers.onConnection {
        deliveries := deliveries + [Delivery(token, Callback.OnConnection, [datastream])];
      }
      t := token;
    }

    /** The deliveries made since `before` reach every listener defining `cb` exactly once, and no one else. */
    ghost predicate FannedOut(before: seq<Delivery>, cb: Callback, args: seq<Json>)
      reads this`deliveries, this`listeners
    {
      && |before| <= |deliveries| && deliveries[..|before|] == before
      && FanOut(listeners, deliveries[|before|..], cb, args)
    }

    /** The fan-out of `cb` over the table, in an unspecified order; the own listener's `onClose` writes `uns,<topic>`. */
    method Notify(cb: Callback, args: seq<Json>)
      requires SingleOwn(listeners)
      modifies this`deliveries, nexus`outbox
      ensures FannedOut(old(deliveries), cb, args)
      ensures nexus.outbox == old(nexus.outbox) +
        (if cb == Callback.OnClose && OwnAmong(listeners, listeners.Keys) then [Wire.Encode(["uns", topic])] else [])
    {
      var pending := listeners.Keys;
      ghost var done: set<Token> := {};
      ghost var start := deliveries;
      while pending != {}
        invariant pending !! done && pending + done == listeners.Keys
        invariant |start| <= |deliveries| && deliveries[..|start|] == start
        invariant forall d :: d in deliveries[|start|..] ==> Delivers(listeners, d, cb, args) && d.token in done
        invariant forall t :: t in listeners && Handles(listeners[t], cb) ==>
          multiset(deliveries[|start|..])[Delivery(t, cb, args)] == if t in done then 1 else 0
        invariant nexus.outbox == old(nexus.outbox) +
          (if cb == Callback.OnClose && OwnAmong(listeners, done) then [Wire.Encode(["uns", topic])] else [])
        decreases pending
      {
        var t :| t in pending;
        ghost var sofar := deliveries[|start|..];
        if listeners[t].Own? {
          assert !OwnAmong(listeners, done);
          if cb == Callback.OnClose {
            nexus.Transmit(Wire.Encode(["uns", topic]));
          }
          assert OwnAmong(listeners, done + {t});
        } else {
          assert OwnAmong(listeners, done + {t}) == OwnAmong(listeners, done);
          if Handles(listeners[t], cb) {
            deliveries := deliveries + [Delivery(t, cb, args)];
            assert deliveries[|start|..] == sofar + [Delivery(t, cb, args)];
          }
        }
        pending := pending - {t};
        done := done + {t};
      }
    }

    /** The data of a `connection`/`message` payload: `JSON.parse(msg.data)`, `None` where that throws. */
    function ParsedData(msg: Option<Json>): Option<Json> {
      match StringField(msg, "data")
      case None => None
      case Some(text) => nexus.parse(text)
    }

    /** `onconnection(msg)`: the parsed data goes through `_handleStream_`. */
    method OnConnection(msg: Option<Json>)
      requires Valid()
      modifies this`history, this`version, this`datastream, this`updates
      ensures Valid()
      ensures ParsedData(msg).None? ==> updates == old(updates) && datastream == old(datastream) && history == old(history)
      ensures ParsedData(msg).Some? ==>
        updates == old(updates) + [ParsedData(msg).value] && datastream == Step(combine, old(datastream), ParsedData(msg).value)
    {
      var data := ParsedData(msg);
      if data.Some? {
        HandleStream(data.value);
      }
    }

    /**
     * `onmessage(msg)`: the parsed data goes through `_handleStream_`, then
     * every listener's `onMessage` gets the data and the new snapshot (the
     * corrected fan-out).
     */
    method OnMessage(msg: Option<Json>)
      requires Valid()
      modifies this`history, this`version, this`datastream, this`updates, this`deliveries, nexus`outbox
      ensures Valid() && nexus.outbox == old(nexus.outbox)
      ensures ParsedData(msg).None? ==>
        updates == old(updates) && datastream == old(datastream) && history == old(history) && deliveries == old(deliveries)
      ensures ParsedData(msg).Some? ==>
        && updates == old(updates) + [ParsedData(msg).value]
        && datastream == Step(combine, old(datastream), ParsedData(msg).value)
        && FannedOut(old(deliveries), Callback.OnMessage, [ParsedData(msg).value, datastream])
        && (set d | d in deliveries[|old(deliveries)|..]) == MessageFanOut(listeners, ParsedData(msg).value, datastream)
    {
      var data := ParsedData(msg);
      if data.Some? {
        HandleStream(data.value);
        Notify(Callback.OnMessage, [data.value, datastream]);
        FanOutReaches(listeners, deliveries[|old(deliveries)|..], Callback.OnMessage, [data.value, datastream]);
      }
    }

    /** The effect of `onclose`, against the deliveries, registry and socket writes before it. */
    ghost predicate ClosedFrom(deliveries0: seq<Delivery>, band0: map<string, Frequency>, outbox0: seq<string>)
      reads this`deliveries, this`listeners, nexus`band, nexus`outbox
    {
      && nexus.band == band0 - {topic}
      && FannedOut(deliveries0, Callback.OnClose, [])
      && nexus.outbox == outbox0 + (if OwnAmong(listeners, listeners.Keys) then [Wire.Encode(["uns", topic])] else [])
    }

    /** `onclose()`: this topic leaves the shared registry, every other topic stays, and every listener's `onClose` runs. */
    method OnClose()
      requires Valid() && nexus.Valid()
      modifies this`deliveries, nexus`band, nexus`outbox
      ensures Valid() && nexus.Valid()
      ensures ClosedFrom(old(deliveries), old(nexus.band), old(nexus.outbox))
      ensures forall t :: t in old(nexus.band) && t != topic ==> t in nexus.band && nexus.band[t] == old(nexus.band)[t]
    {
      nexus.band := nexus.band - {topic};
      Notify(Callback.OnClose, []);
    }

    /** The updates contributed by a `connection` or `message` payload: none when it does not parse. */
    function Parsed(payload: Option<Json>): seq<Json> {
      if ParsedData(payload).Some? then [ParsedData(payload).value] else []
    }

    /**
     * The effect of `broadcast(event, payload)`, against the updates,
     * deliveries, registry and socket writes before it: `close` closes,
     * `connection` adds the parsed update, `message` adds it and fans it out
     * with the new snapshot, and any other event changes nothing.
     */
    ghost predicate BroadcastFrom(event: string, payload: Option<Json>, updates0: seq<Json>, deliveries0: seq<Delivery>,
                                  band0: map<string, Frequency>, outbox0: seq<string>)
      reads this`updates, this`deliveries, this`listeners, this`datastream, nexus`band, nexus`outbox
    {
      match HandlerFor(event)
      case None =>
        updates == updates0 && deliveries == deliveries0 && nexus.band == band0 && nexus.outbox == outbox0
      case Some(Onclose) =>
        updates == updates0 && ClosedFrom(deliveries0, band0, outbox0)
      case Some(Onconnection) =>
        && updates == updates0 + Parsed(payload)
        && deliveries == deliveries0 && nexus.band == band0 && nexus.outbox == outbox0
      case Some(Onmessage) =>
        && updates == updates0 + Parsed(payload)
        && nexus.band == band0 && nexus.outbox == outbox0
        && (ParsedData(payload).None? ==> deliveries == deliveries0)
        && (ParsedData(payload).Some? ==>
              FannedOut(deliveries0, Callback.OnMessage, [ParsedData(payload).value, datastream]))
    }

    /** `broadcast(event, payload)`: calls the method `"on" + event` if there is one, and is a no-op otherwise. */
    method Broadcast(event: string, payload: Option<Json>)
      requires Valid() && nexus.Valid()
      modifies this`history, this`version, this`datastream, this`updates, this`deliveries
      modifies nexus`band, nexus`outbox
      ensures Valid() && nexus.Valid()
      ensures BroadcastFrom(event, payload, old(updates), old(deliveries), old(nexus.band), old(nexus.outbox))
    {
      match HandlerFor(event)
      case Some(Onconnection) =>
        OnConnection(payload);
      case Some(Onmessage) =>
        OnMessage(payload);
      case Some(Onclose) =>
        OnClose();
      case None =>
    }

    /**
     * `removeListener(token)`: deletes that entry only; if any listener is left
     * (the source tests `>= 1`) the Frequency broadcasts `close` at once.
     */
    method RemoveListener(token: Token)
      requires Valid() && nexus.Valid()
      modifies this`listeners, this`history, this`version, this`datastream, this`updates, this`deliveries
      modifies nexus`band, nexus`outbox
      ensures Valid() && nexus.Valid()
      ensures listeners == old(listeners) - {token} && updates == old(updates)
      ensures |listeners| >= 1 ==> ClosedFrom(old(deliveries), old(nexus.band), old(nexus.outbox))
      ensures |listeners| == 0 ==>
        deliveries == old(deliveries) && nexus.band == old(nexus.band) && nexus.outbox == old(nexus.outbox)
    {
      listeners := listeners - {token};
      if |listeners| >= 1 {
        Broadcast("close", None);
      }
    }

    /** `close()`: a `close` broadcast is deferred. */
    method Close()
      requires nexus.Valid()
      modifies nexus`timers
      ensures nexus.Valid()
      ensures nexus.timers == old(nexus.timers) + [Task(this, "close", None)]
    {
      nexus.timers := nexus.timers + [Task(this, "close", None)];
    }
  }

  /** The closure state of one `reconnect()` run. */
  class Reconnection {
    const client: Client
    /** `attemptsMade`. */
    var made: int
    /** `attemptsRemaining`. */
    var remaining: int
    /** The delay of the scheduled `attemptReconnection`, `None` once nothing is scheduled. */
    var timer: Option<int>
    /** The budget the run started from. */
    ghost const budget: int
    /** Whether some attempt's connection has opened. */
    ghost var reconnected: bool

    function State(): Retry.Countdown
      reads this`made, this`remaining, this`timer
    {
      Retry.Countdown(made, remaining, timer)
    }

    /** Until a connection opens, the attempts made and remaining add up to the budget. */
    ghost predicate Valid()
      reads this`made, this`remaining, this`reconnected, this`timer
    {
      && made >= 0
      && (!reconnected ==> made + remaining == budget)
      && (reconnected ==> remaining == 0 && timer.None?)
    }

    constructor (client: Client, budget: int)
      ensures this.client == client && this.budget == budget && !reconnected && Valid()
      ensures State() == Retry.Start(budget)
    {
      this.client := client;
      this.budget := budget;
      made := 0;
      remaining := budget;
      timer := Some(Retry.FirstDelay);
      reconnected := false;
    }

    /**
     * The scheduled `attemptReconnection` runs: with nothing remaining it calls
     * `onTimeout` and schedules nothing; otherwise it schedules the next
     * attempt with the current `interval`, counts this one and connects again.
     */
    method Fire()
      requires Valid() && timer.Some?
      modifies this`made, this`remaining, this`timer, client`connecting, client`hookLog
      modifies client`awaiting, client`stranded
      ensures Valid()
      ensures State() == Retry.Fire(old(State()), Get(client.persistence, "interval"))
      ensures old(remaining) == 0 ==>
        client.hookLog == old(client.hookLog) + ["onTimeout"] && client.connecting == old(client.connecting)
      ensures old(remaining) != 0 ==> client.connecting && client.hookLog == old(client.hookLog) + ["onConnecting"]
      ensures old(remaining) != 0 ==>
        client.awaiting == [] && client.stranded == old(client.stranded) + old(client.awaiting)
      ensures old(remaining) == 0 ==> client.awaiting == old(client.awaiting) && client.stranded == old(client.stranded)
    {
      if remaining == 0 {
        client.CallHook("onTimeout");
        timer := None;
      } else {
        timer := Some(Retry.Delay(Get(client.persistence, "interval"), made));
        made := made + 1;
        remaining := remaining - 1;
        client.Connect();
      }
    }

    /** An attempt's connection opened: nothing remains, the timer is cleared and `onReconnect` is called. */
    method Succeed()
      requires Valid()
      modifies this`remaining, this`timer, this`reconnected, client`hookLog
      ensures Valid() && reconnected
      ensures State() == Retry.Succeed(old(State()))
      ensures client.hookLog == old(client.hookLog) + ["onReconnect"]
    {
      remaining := 0;
      timer := None;
      reconnected := true;
      client.CallHook("onReconnect");
    }
  }
}
