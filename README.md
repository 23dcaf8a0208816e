# condux-client: a verified model of the client multiplexer

condux-client multiplexes named topics ("Frequencies") over one SockJS
connection to a Condux server. This project models its core in Dafny:

- `ConduxClient` (`src/Client.js`): the frame codec (`joinAndSend` and the
  split in `_multiplex`), the routing of an inbound frame to its Frequency
  (type codes, invalid JSON, the `rej` retry queue, registration notices), the
  Frequency registry (`registerFrequency`/`Hz`), the persistence options
  (`updatePersistence`), the module-level `connecting` flag, and the
  reconnection countdown of `reconnect`.
- `Frequency` (`src/Frequency.js`): the snapshot state (`datastream`,
  `version`, `history`, `_handleStream_`), the listener table (`addListener`,
  `removeListener`), dispatch (`broadcast`, `onconnection`, `onmessage`,
  `onclose`, `close`) and the constructor's initial state.

Modules:

- `Wrappers`: `Option`.
- `Json`: parsed values, JavaScript truthiness, `JSON.parse` as a partial
  function (`JsonParser`).
- `Wire`: `String.prototype.split`, `Array.prototype.join`, and frame
  decoding and encoding, with their round trips.
- `Persistence`: option maps, `merge`/`pick`, and `updatePersistence`'s key rule.
- `Retry`: the reconnection countdown as a value.
- `Snapshots`: the snapshot history as a fold of the updates.
- `Subscribers`: the listener table and what a fan-out reaches.
- `Demux`: `_multiplex` as a function of the registry keys, the queue and the frame.
- `Condux`: the classes `Client`, `Frequency` and `Reconnection`, whose
  methods update their fields in place. They refer to each other, so they
  share one module.

Effects on the outside world are recorded in fields of `Client`:

- `outbox`: frames written to the socket;
- `awaiting`: frames waiting for the connection promise;
- `stranded` (ghost): frames that waited on an earlier attempt's promise when a new `connect()` replaced it;
- `timers`: broadcasts deferred with `setTimeout(..., 0)`, run one at a time by `RunTimer`;
- `hookLog`: lifecycle hooks called.

Listener callbacks are outside code. Each call is recorded in
`Frequency.deliveries` as a token, a callback and its arguments.

In the following places the documented behaviour differs from the code and the
model follows the code. (Where the code is evidently wrong, the model follows
the intended behaviour instead; see "## Findings".)

- **`history(0)` is the initial `{}`, not the first hydration.** The initial
  `conn` frame goes through `_handleStream_`, which pushes the previous
  snapshot first.
- **`removeListener` broadcasts `close` while at least one listener remains.**
  The code tests `>= 1`, not "only the own listener left".
- **`Opened` writes frames in the order the promise chain produces.** The
  frames queued by `joinAndSend` before the connection opened go first, then
  the two system subscriptions, and only then is `onConnection` called.
- **A `rej` or `uns` frame with an empty payload is an error.** `rej,chat,`
  fails `JSON.parse("")`, so it becomes an `err` frame: `chat` is not queued
  for retry and nothing is closed (`Demux.EmptyPayloadIsError`).
- **`onconnection` hydrates from `msg.data`, not from the frame's payload.**
  `conn,chat,{"history":[]}` has no `data` property, so the parse fails and
  the snapshot is unchanged (`Condux.Frequency.OnConnection`,
  `Condux.Frequency.ParsedData`).

## Model

| member | source | states |
|---|---|---|
| Wire.Split | src/Client.js:259 | splitting on `,` yields one more piece than there are commas, and no piece contains a comma |
| Wire.JoinSplit | src/Client.js:259-262 | joining the pieces of a split with the same separator restores the text |
| Wire.SplitPlain | src/Client.js:259 | a comma-free text splits into itself alone |
| Wire.SplitAfterPlain | src/Client.js:259 | splitting `a,b` with comma-free `a` yields `a` followed by the pieces of `b` |
| Wire.SplitJoin | src/Client.js:259-262 | splitting the join of comma-free pieces gives back exactly those pieces |
| Wire.Decode | src/Client.js:259-262 | type and topic never contain a comma; a frame with no topic has payload "" (`[].join()`) |
| Wire.DecodeEncode | src/Client.js:259-262 | a frame encoded from (type, topic, payload) with comma-free type and topic decodes to the same three, even when the payload has commas |
| Wire.DecodeEncodePair | src/Client.js:316-319 | a two-field frame such as `sub,topic` decodes with the empty payload |
| Wire.EncodeDecode | src/Client.js:259-262 | any text with at least two commas re-encodes exactly from its decoded type, topic and payload |
| Persistence.DefaultsMeaning | src/Client.js:34-43 | the defaults are exactly the eight keys: `enabled` true, five hooks that are distinct functions, `attempts` 10 and `interval` 3000 |
| Persistence.UpdateMeaning | src/Client.js:96 | after an update the key set is the previous one, supplied values win for those keys, unknown keys are dropped, and other values stay |
| Persistence.UpdateIdempotent | src/Client.js:96 | applying the same options twice equals applying them once |
| Persistence.UpdateCompose | src/Client.js:96 | two successive updates equal one update with the merged options, the later winning |
| Retry.Fire | src/Client.js:184-202 | an attempt keeps attempts made plus remaining constant, and schedules nothing more exactly when nothing remained |
| Retry.AttemptsCounted | src/Client.js:179-201 | after k of n attempts, k are made, n-k remain, and the next one is scheduled after `Delay(interval, k-1)` |
| Retry.TimesOutAfterBudget | src/Client.js:185-187 | a run with budget n makes n attempts, then times out on the next firing with nothing scheduled |
| Retry.NegativeBudgetNeverTimesOut | src/Client.js:185 | a negative `attempts` is truthy after every decrement, so the run never times out |
| Snapshots.Trail | src/Frequency.js:85-90 | the history has one entry per update |
| Snapshots.TrailAt | src/Frequency.js:49-51 | history entry i is the snapshot after the first i updates |
| Snapshots.TrailPrefix | src/Frequency.js:87 | later updates never change earlier history entries |
| Snapshots.BoundUpdateStreamKeepsStart | src/Frequency.js:37 | with the default update function as bound, the snapshot never leaves its initial value |
| Snapshots.BoundUpdateStreamIgnoresHydration | src/Frequency.js:89 | a concrete hydration leaves the as-written snapshot at `{}`, while `Overwrite` takes it |
| Snapshots.OverwriteKeepsLatest | src/Frequency.js:150-152 | with `updateStream` the snapshot is the latest truthy update, or the start value if none |
| Subscribers.HandlerForMeaning | src/Frequency.js:113-117 | `broadcast` finds a method exactly for `connection`, `message` and `close`, and none for any other event |
| Subscribers.FanOutReaches | src/Frequency.js:142-147 | a fan-out reaches exactly the listeners that define the callback, each once |
| Subscribers.RemovedIsNotReached | src/Frequency.js:200-201 | after removal a token is reached by no fan-out, and every other handling listener still is |
| Subscribers.HydrationLosesSnapshot | src/Frequency.js:63-75 | the as-written hydration argument differs from the snapshot for every snapshot |
| Subscribers.MessageFanOutLosesListeners | src/Frequency.js:132-137 | one listener with `onMessage` is reached by the corrected fan-out and not by the code as written |
| Demux.ReactionTable | src/Client.js:287-307 | `uns` closes, `conn`/`msg`/`res`/`err` broadcast with the payload, `rej` requeues, any other type does nothing |
| Demux.Pull | src/Client.js:275 | the pulled topic no longer occurs in the queue |
| Demux.PullCounts | src/Client.js:275 | `pull` removes every copy of the topic and keeps the count of every other entry |
| Demux.PullAbsent | src/Client.js:275 | pulling an absent topic leaves the queue as it was |
| Demux.AcceptRegistrationMeaning | src/Client.js:267-277 | a notice resubscribes exactly when its topic is queued, and then removes all its copies; otherwise the queue is unchanged |
| Demux.RegistrationAsWrittenThrows | src/Client.js:270 | for a queued `chat`, the as-written branch throws while the corrected one resubscribes `chat` and empties the queue |
| Demux.Route | src/Client.js:257-310 | a handled frame goes to a registered key, and a requeued key is the frame's own topic |
| Demux.UnknownTopicDropped | src/Client.js:263-265 | a frame whose topic has no Frequency is dropped: no broadcast, queue unchanged |
| Demux.InvalidPayloadIsError | src/Client.js:279-285 | a payload that does not parse becomes an `error` broadcast carrying the fixed message |
| Demux.TopiclessFrameIsError | src/Client.js:259-285 | a frame without a topic has the empty payload, so it is always an `error` |
| Demux.EncodedFrameReachesTopic | src/Client.js:316-319 | a frame built by `joinAndSend(type, topic, json)` reaches that topic with its type and parsed payload |
| Demux.EmptyPayloadIsError | src/Client.js:279-285 | a frame `<type>,<topic>` or `<type>,<topic>,` for a registered topic is an `error` broadcast with the queue unchanged, whatever its type, so a bare `rej` queues nothing and a bare `uns` closes nothing |
| Demux.NullNoticeAborts | src/Client.js:267-271 | a `/REGISTRATIONS` frame aborts exactly when its payload is not JSON or is `null`, whose `registered` read throws |
| Demux.RetryQueueOnlyGrows | src/Client.js:267-307 | while `/REGISTRATIONS` has no Frequency, no frame resubscribes or aborts, and the queue grows only by the frame's topic on `rej` |
| Condux.PostKeepsOrder | src/Client.js:316-319 | successive writes keep their call order: while connecting all of them wait behind the frames already waiting and none reaches the socket; once connected they reach the socket in order |
| Condux.RegistrationIdempotent | src/Client.js:369-376 | a second registration finds the first Frequency, a reserved name is refused exactly, and the registry never gains a reserved name |
| Condux.RegistrationAsWrittenNeverCreates | src/Frequency.js:105 | as written, registering a new topic never succeeds, while the corrected registry creates `chat` |
| Condux.Client.constructor | src/Client.js:66 | options are the defaults overridden by the supplied keys; registry and queue start empty; `onConnecting` is called and `connecting` is raised |
| Condux.Client.Connect | src/Client.js:131-141 | `onConnecting` is called and `connecting` becomes true; frames waiting on the previous connection promise are stranded, so nothing waits on the new one |
| Condux.Client.Opened | src/Client.js:149-159 | once per attempt, while connecting: `connecting` drops, the waiting frames are written, then the two system subscriptions, then `onConnection` |
| Condux.Client.JoinAndSend | src/Client.js:316-319 | the comma-joined frame is written now, or queued behind the connection promise while connecting |
| Condux.Client.UpdatePersistence | src/Client.js:93-112 | options follow the update rule with the same keys, and the new `onConnecting` is called exactly when it changed while connecting |
| Condux.Client.Reconnect | src/Client.js:177-182 | does nothing while connecting; otherwise starts a run budgeted by `attempts` with the first attempt after 200 ms |
| Condux.Client.Multiplex | src/Client.js:257-310 | queue, deferred broadcasts and writes change exactly as `Demux.Route` decides, and every broadcast targets the frame's Frequency |
| Condux.Client.RegisterFrequency | src/Client.js:369-376 | returns the existing Frequency, refuses reserved names, or files a fresh Frequency under its topic with the initial state and a `sub` frame; the registry invariant is kept |
| Condux.Client.Hz | src/Client.js:407-409 | behaves as `registerFrequency`: the existing Frequency, nothing for a reserved name, or a fresh Frequency in its initial state filed under its topic with a `sub,<topic>` write |
| Condux.Client.RunTimer | src/Client.js:518-520 | removes the oldest deferred broadcast from the queue and applies its whole effect on the target, the registry and the socket writes, as `Frequency.BroadcastFrom` states |
| Condux.RegisterTwice | src/Client.js:369-376 | two registrations of one topic return the same Frequency, which is filed under that topic, or nothing for a reserved name |
| Condux.Frequency.constructor | src/Frequency.js:28-109 | a new Frequency has `{}`, version -1, an empty history of its own, one own listener, and a pending `sub,<topic>` |
| Condux.Frequency.History | src/Frequency.js:49-51 | `history(i)` is defined exactly for the stored indices |
| Condux.Frequency.HistoryIsSnapshot | src/Frequency.js:49-51 | entry i is the snapshot after i updates, and entry 0 is the initial `{}` |
| Condux.Frequency.HandleStream | src/Frequency.js:85-94 | the previous snapshot is appended, version rises by one, and the step's truthy result replaces the snapshot; history length stays version + 1 |
| Condux.Frequency.AddListener | src/Frequency.js:185-191 | the listener is stored under its token, other entries unchanged, and its `onConnection` gets the current snapshot once |
| Condux.Frequency.Notify | src/Frequency.js:142-147 | each listener defining the callback is reached exactly once, and the own listener's close writes `uns,<topic>` |
| Condux.Frequency.OnConnection | src/Frequency.js:119-122 | the parsed data is one more update; unparsable data changes nothing |
| Condux.Frequency.OnMessage | src/Frequency.js:124-138 | the parsed data is one more update, then exactly the `onMessage` listeners get the data and the new snapshot |
| Condux.Frequency.OnClose | src/Frequency.js:140-148 | the topic leaves the shared registry, all other topics stay, and every `onClose` listener is reached |
| Condux.Frequency.Broadcast | src/Frequency.js:113-117 | `close` closes, `connection` adds the parsed update, `message` adds it and fans it out to exactly the `onMessage` listeners, and any other event changes nothing |
| Condux.Frequency.RemoveListener | src/Frequency.js:200-205 | only that entry goes, the snapshot state stays, and `close` is broadcast exactly when a listener remains |
| Condux.Frequency.Close | src/Frequency.js:207-209 | a `close` broadcast of this Frequency is deferred |
| Condux.Reconnection.constructor | src/Client.js:179-182 | a run starts with nothing made, the whole budget remaining and the first attempt scheduled |
| Condux.Reconnection.Fire | src/Client.js:184-207 | the step follows `Retry.Fire`; at zero `onTimeout` is called and nothing else changes, otherwise the client connects again and the frames waiting on the old attempt are stranded |
| Condux.Reconnection.Succeed | src/Client.js:216-220 | once connected, nothing remains, the timer is cleared and `onReconnect` is called |

## Left out

- SockJS transport, bluebird promises and `setTimeout` timing are not modelled. Socket writes are the `outbox` and `awaiting` fields, deferred broadcasts are `timers`, and the order in which timers run is a queue.
- JSON is a parameter (`JsonParser`), constrained only to reject the empty text. `mergeStream` and the `merge` option are not modelled; a Frequency's update function is a parameter.
- `uniqId` is not modelled: listener and own-listener tokens are parameters.
- Listener callbacks are outside code. The model records which callback runs with which arguments, not what it does or whether it throws.
- Condux.Frequency.HandleStream: snapshots are values, so the update function and outside code are taken never to change a snapshot in place. In the source `history` stores the snapshot objects themselves (src/Frequency.js:87) and `history(i)` hands them out (src/Frequency.js:50), while the same object is passed to the update function (src/Frequency.js:89) and, under overwrite, to `onMessage` listeners. An update function that changes its first argument in place, such as `mergeStream`'s array branch with `prevStream.push(newData)`, rewrites the entry just stored, and so does outside code that changes an object it received. `Condux.Frequency.HistoryIsSnapshot` and `Snapshots.TrailPrefix` (earlier entries never change) hold only under that premise.
- The order in which a fan-out reaches listeners is not stated. `Promise.all(map(...))` follows the object's key order.
- Sends are not tied to a particular socket. The own listener writes `uns,<topic>` to the socket that existed when the Frequency was built; the model writes to the client's `outbox`.
- Condux.Reconnection.Succeed: models lines 216-220 as intended. As written, the unqualified `_resubscribeFrequencies()` call at src/Client.js:210 throws a ReferenceError right after `connect()`, so lines 213-220 never run. `onReconnect` is then never called, and the timer set at line 199 keeps firing until the budget runs out and `onTimeout` is called. Each firing opens a new socket, even after one has opened (`Condux.Reconnection.Fire` alone shows this run). Line 213, which adds the message handler to the new socket, is not modelled. As written it never runs, so a socket opened by a reconnect has no `message` listener and no later frame reaches `_multiplex`; in the model `Condux.Client.Multiplex` stays callable after a reconnect.
- Condux.Client.Connect: a superseded attempt's socket is taken never to open. Frames waiting on it go to the ghost `stranded` and are never written. In the source, that socket could still open later, and its promise callbacks would then write those frames to whatever `this.sock` is at that moment.
- Condux.Client.JoinAndSend: while connected, the write is immediate in the model. The source defers it to a promise callback. So a direct `socket.send` later in the same turn reaches the socket first, for example the own listener's `uns,<topic>` (src/Frequency.js:101). `outbox` does not capture the order between the two.
- `_resubscribeFrequencies`, `Frequency.prototype._subscribe` (which does not exist), `createAction(s)`, the React mixin, `tuneInto`, `Singleton`, and everything under `lib/` are not part of this model.
- The socket `close` listeners for `onDisconnect` and `reconnect`, and their adding and removing when `enabled` toggles, are not modelled. The `onDisconnect` listener also reads `tthis` (src/Client.js:160).
- `JSON.parse` of a `msg.data` that is not a string (JavaScript first converts it to text) is not modelled. A `data` property that is not a string counts as unparsable.
- Numeric options are integers: NaN, fractions and infinities are not modelled.
- An option value that is neither a number, a boolean nor a function is not modelled.
- Calling a hook that is not a function (which throws) is not modelled.
- Inherited `Object.prototype` names as topics are not modelled (`band["toString"]`).
- The `open` broadcast queued by the constructor is not modelled: Frequency has no `onopen`, so it does nothing.
- Condux.Client.RegisterFrequency, Condux.Client.Hz, Condux.RegisterTwice, Condux.RegistrationIdempotent, Condux.Frequency.constructor, Condux.Frequency.AddListener, Condux.Frequency.OnMessage, Condux.Frequency.Broadcast and Condux.Client.RunTimer follow the corrected behaviour of Findings rows 1, 2, 4 and 5. `Hz`, `RegisterTwice` and `RegistrationIdempotent` rely on row 1 (and row 2). `Broadcast` and `RunTimer` rely on row 5 for `message`. The as-written behaviour is captured by the members named in those rows.
- Demux.Route: a frame on `/REGISTRATIONS` follows the corrected notice handling of Findings row 6 (resubscribe the registered topic and pull it from the queue). As written, line 270 throws on every such frame, and line 274 would call `_subscribe`, which Frequency does not define, on the `/REGISTRATIONS` Frequency rather than on the registered topic. The branch is unreachable while the registry holds no reserved name (`Demux.RetryQueueOnlyGrows`).
- Condux.Client.Multiplex: applies `Demux.Route`'s outcome, so it inherits that corrected `/REGISTRATIONS` branch.

## Findings

| source | as written | input that shows it | evidently intended | confidence | as-written member | corrected member |
|---|---|---|---|---|---|---|
| src/Frequency.js:105 | `nexus.connected` is the boolean getter `sock.readyState === 1`, so `.then` is a TypeError and `new Frequency` throws before `band[topic]` is set | `registerFrequency("chat")` on a fresh client | subscribe once the client's connection promise resolves, and file the Frequency | high (not executed) | Condux.RegistrationAsWrittenNeverCreates | Condux.Client.RegisterFrequency |
| src/Frequency.js:31 | no comma after `version = -1` ends the declaration; `history = [], socket = ..., defaults = ...` then assigns undeclared names, which strict module code refuses | any `new Frequency(...)` | a per-instance `history` array, `socket` and `defaults` | high (not executed) | Condux.RegistrationAsWrittenNeverCreates | Condux.Frequency.constructor |
| src/Frequency.js:37 | `updateWith` is `updateStream` bound to the Frequency and called as `(datastream, newData)`, so it returns the old snapshot | the `conn` payload `{"history":[]}` | the snapshot becomes the new data | high (not executed) | Snapshots.BoundUpdateStreamIgnoresHydration | Snapshots.OverwriteKeepsLatest |
| src/Frequency.js:189 | the descriptor declares `get function()`, a getter keyed `function`, so it has no `get` key and no `value` key; `defineProperty` then makes `datastream` a data property holding `undefined`, and late joiners get `undefined` | `addListener({onConnection})` after a hydration | `onConnection` receives the current snapshot | high (not executed) | Subscribers.HydrationLosesSnapshot | Condux.Frequency.AddListener |
| src/Frequency.js:134 | the promise executor is a plain `function`, so `this` is undefined in strict code and `this.datastream` throws before `onMessage` is called | one listener with `onMessage` and a `msg` frame | each `onMessage` listener receives the data and the new snapshot | high (not executed) | Subscribers.MessageFanOutLosesListeners | Condux.Frequency.OnMessage |
| src/Client.js:270 | `let payload = JSON.parse(payload)` reads the new binding in its own initialiser, a ReferenceError, so a registration notice never resubscribes | notice `{"registered":"chat"}` with `chat` queued | resubscribe the registered topic and pull it from the queue | high (not executed) | Demux.RegistrationAsWrittenThrows | Demux.AcceptRegistrationMeaning |
