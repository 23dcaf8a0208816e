/**
 * A Frequency's listener table `_listeners_` and what a fan-out over it
 * delivers. Listener callbacks are code outside the model: a delivery records
 * that a callback was invoked, with its arguments.
 */
module Subscribers {
  import opened Wrappers
  import opened Json

  /** The key `addListener` stores a listener under (the source draws it from `uniqId`). */
  type Token = string

  datatype Callback = OnConnection | OnMessage | OnClose

  /** Which of the three callbacks an outside listener defines. */
  datatype Handlers = Handlers(onConnection: bool, onMessage: bool, onClose: bool)

  /**
   * `Own` is the listener the Frequency registers on itself: its only callback
   * is `onClose`, which writes `uns,<topic>` to the socket.
   */
  datatype Listener = Own | External(handlers: Handlers)

  datatype Delivery = Delivery(token: Token, callback: Callback, args: seq<Json>)

  /** The methods of a Frequency that `broadcast` can reach as `this["on" + event]`. */
  datatype HandlerMethod = Onconnection | Onmessage | Onclose

  /** `broadcast(event)` looks up the method named `"on" + event`; there are three. */
  function HandlerFor(event: string): Option<HandlerMethod> {
    var name := "on" + event;
    if name == "onconnection" then Some(Onconnection)
    else if name == "onmessage" then Some(Onmessage)
    else if name == "onclose" then Some(Onclose)
    else None
  }

  /** Exactly the events `connection`, `message` and `close` reach a method; every other event is a no-op. */
  lemma HandlerForMeaning(event: string)
    ensures HandlerFor(event) == Some(Onconnection) <==> event == "connection"
    ensures HandlerFor(event) == Some(Onmessage) <==> event == "message"
    ensures HandlerFor(event) == Some(Onclose) <==> event == "close"
    ensures HandlerFor(event).None? <==> event !in {"connection", "message", "close"}
  {
    var name := "on" + event;
    assert name[2..] == event;
    assert "onconnection"[2..] == "connection";
    assert "onmessage"[2..] == "message";
    assert "onclose"[2..] == "close";
  }

  /** Whether an outside listener defines the callback (`l.onMessage && ...`). */
  predicate Handles(l: Listener, cb: Callback) {
    match l
    case Own => false
    case External(h) =>
      match cb
      case OnConnection => h.onConnection
      case OnMessage => h.onMessage
      case OnClose => h.onClose
  }

  /** `d` is a delivery of `cb` with `args` to a listener of the table that defines `cb`. */
  predicate Delivers(listeners: map<Token, Listener>, d: Delivery, cb: Callback, args: seq<Json>) {
    d.callback == cb && d.args == args && d.token in listeners && Handles(listeners[d.token], cb)
  }

  /** The tokens among `among` whose listener defines `cb`. */
  function Handling(listeners: map<Token, Listener>, among: set<Token>, cb: Callback): set<Token> {
    set t | t in listeners && t in among && Handles(listeners[t], cb)
  }

  /** The deliveries a fan-out of `cb` with `args` makes to the listeners of `among`. */
  function Reached(listeners: map<Token, Listener>, among: set<Token>, cb: Callback, args: seq<Json>): set<Delivery> {
    set t | t in Handling(listeners, among, cb) :: Delivery(t, cb, args)
  }

  /** `made` delivers `cb` with `args` exactly once to each listener of the table that defines `cb`, and to no one else. */
  predicate FanOut(listeners: map<Token, Listener>, made: seq<Delivery>, cb: Callback, args: seq<Json>) {
    && (forall d :: d in made ==> Delivers(listeners, d, cb, args))
    && (forall t :: t in listeners && Handles(listeners[t], cb) ==> multiset(made)[Delivery(t, cb, args)] == 1)
  }

  /** A fan-out reaches exactly the deliveries `Reached` describes, each one once. */
  lemma FanOutReaches(listeners: map<Token, Listener>, made: seq<Delivery>, cb: Callback, args: seq<Json>)
    requires FanOut(listeners, made, cb, args)
    ensures (set d | d in made) == Reached(listeners, listeners.Keys, cb, args)
    ensures forall i, j :: 0 <= i < j < |made| ==> made[i] != made[j]
  {
    forall d | d in Reached(listeners, listeners.Keys, cb, args)
      ensures d in made
    {
      var t :| t in Handling(listeners, listeners.Keys, cb) && d == Delivery(t, cb, args);
      assert multiset(made)[d] == 1;
    }
    forall i, j | 0 <= i < j < |made|
      ensures made[i] != made[j]
    {
      var d := made[i];
      assert d in made && Delivers(listeners, d, cb, args);
      assert d == Delivery(d.token, cb, args) && multiset(made)[d] == 1;
      RepeatCounted(made, i, j);
    }
  }

  /** An element found at two positions occurs at least twice. */
  lemma RepeatCounted<T>(s: seq<T>, i: int, j: int)
    requires 0 <= i < j < |s|
    ensures s[i] == s[j] ==> multiset(s)[s[i]] >= 2
  {
    assert s == s[..i] + [s[i]] + s[i+1..j] + [s[j]] + s[j+1..];
  }

  /** Whether the Frequency's own listener is among the given tokens. */
  predicate OwnAmong(listeners: map<Token, Listener>, among: set<Token>) {
    exists t :: t in listeners && t in among && listeners[t].Own?
  }

  /** At most one entry is the Frequency's own listener. */
  predicate SingleOwn(listeners: map<Token, Listener>) {
    forall t, u :: t in listeners && u in listeners && listeners[t].Own? && listeners[u].Own? ==> t == u
  }

  /** A removed token is reached by no later fan-out, and every other handling listener still is. */
  lemma RemovedIsNotReached(listeners: map<Token, Listener>, token: Token, cb: Callback, args: seq<Json>)
    ensures forall d :: d in Reached(listeners - {token}, (listeners - {token}).Keys, cb, args) ==> d.token != token
    ensures forall t :: t in listeners && t != token && Handles(listeners[t], cb) ==>
      Delivery(t, cb, args) in Reached(listeners - {token}, (listeners - {token}).Keys, cb, args)
  {
    forall t | t in listeners && t != token && Handles(listeners[t], cb)
      ensures Delivery(t, cb, args) in Reached(listeners - {token}, (listeners - {token}).Keys, cb, args)
    {
      assert t in Handling(listeners - {token}, (listeners - {token}).Keys, cb);
    }
  }

  /**
   * The argument a late joiner's `onConnection` receives, as written: the
   * descriptor for the `datastream` property declares an accessor keyed
   * `function`, so it has no `get` key and no `value` key; the property is
   * then a data property holding `undefined`, whatever the snapshot is.
   */
  function HydrationArgumentAsWritten(datastream: Json): Option<Json> {
    None
  }

  /** The corrected hydration argument: the current snapshot. */
  function HydrationArgument(datastream: Json): Option<Json> {
    Some(datastream)
  }

  /** As written, a late joiner is hydrated with `undefined` instead of the snapshot. */
  lemma HydrationLosesSnapshot(datastream: Json)
    ensures HydrationArgumentAsWritten(datastream) != HydrationArgument(datastream)
  {
  }

  /**
   * The `onMessage` deliveries of `onmessage` as written: each promise executor
   * evaluates `this.datastream` with `this` undefined (module code is strict),
   * which throws before `onMessage` is called, so no listener is reached.
   */
  function MessageFanOutAsWritten(listeners: map<Token, Listener>, data: Json, snapshot: Json): set<Delivery> {
    {}
  }

  /** The corrected `onMessage` fan-out: every listener that defines it gets the data and the new snapshot. */
  function MessageFanOut(listeners: map<Token, Listener>, data: Json, snapshot: Json): set<Delivery> {
    Reached(listeners, listeners.Keys, OnMessage, [data, snapshot])
  }

  /** One listener with an `onMessage` callback already shows the difference. */
  lemma MessageFanOutLosesListeners(data: Json, snapshot: Json)
    ensures var listeners := map["A1F3" := External(Handlers(false, true, false))];
      MessageFanOutAsWritten(listeners, data, snapshot) == {} &&
      MessageFanOut(listeners, data, snapshot) == {Delivery("A1F3", OnMessage, [data, snapshot])}
  {
    var listeners := map["A1F3" := External(Handlers(false, true, false))];
    assert Handling(listeners, listeners.Keys, OnMessage) == {"A1F3"};
  }
}
