# rocket-league-scribe: event router and game-state snapshot

A Dafny model of `index.js` of rocket-league-scribe, a client of a local
Rocket League telemetry relay. The file holds two pieces of logic:

- **`WsSubscribers`**, the event router. It keeps a table
  channel → event → ordered callbacks, a `webSocketConnected` flag and a FIFO
  `registerQueue` of `"channel:event"` strings. `subscribe` registers a
  callback for every pair of channels × events and announces each pair that
  is new to the relay as `wsRelay:register`. The announcement goes out at once
  when connected and is queued otherwise; `onopen` flushes the queue.
  `triggerSubscribers` calls the stored callbacks in order. `send` either
  dispatches a `local` event in-process or writes one envelope.
  `onmessage` splits the inbound `event` on `:` and dispatches it.
- **`cachedGameData`**, the game snapshot, and its `initialized`,
  `goal_scored` and `update_state` handlers.

Files and modules:

- `event_keys.dfy` (`EventKeys`): the compound key `channel:event`, and
  JavaScript's `split(':')` as `Split` with its inverse `Join`.
- `router.dfy` (`Router`): the router's data, one function per effect on a
  `RouterState` value, and class `WsSubscribers`. The class has the source's
  fields. Its methods change them step by step with the source's loops and
  branches. Each method is proved to end in the state its function gives.
- `router_proofs.dfy` (`RouterProofs`): what those functions guarantee.
  This covers FIFO dispatch, announcing a pair exactly once, the queue
  flushed in order, the whole channel wiped by a clear, and the send/receive
  round trip.
- `game_state.dfy` (`GameState`): the snapshot as a datatype, the handlers
  as functions on it, and class `GameCache`. The class holds the snapshot in
  a field, and its methods are the handlers. Lemmas about goals and ticks
  sit beside it.
- `startup.dfy` (`Startup`): the module-level wiring at index.js:247-262,
  and what it queues and sends.
- `wrappers.dfy` (`Wrappers`): `Option`.

How the environment is represented:

- The transport is the field `outbox`, a log of the envelopes written to the
  socket.
- The socket's events are the explicit methods `OnOpen`, `OnError`,
  `OnClose` and `OnMessage`.
- Callbacks are opaque identities (`Function(id)`), or `NotFunction` for a
  stored value that is not a function. A dispatch appends `Call(id, data)`
  to the log `calls`.
- Payloads are the opaque `Data`.

Points where the code and the intended design differ, and the model follows
the code:

- `clearEventCallbacks(c, e)` resets the whole channel `c` (index.js:93),
  not only the pair. A later subscription to any event of `c` is therefore
  announced to the relay again.
- An inbound event without a second `:` segment is not dropped. JavaScript
  passes `undefined` as the event name, which becomes the property key
  `"undefined"`. The message is then dispatched to that key.
- `send` with a non-string channel or event only logs and returns.
- `update_state` copies the scores into the new fields `team1_score` and
  `team2_score`. It does not touch `team1.score` or `team2.score`.
- The clock is `timeLeft = isOT ? 0 : time_milliseconds` and
  `timePassed = GAME_LENGTH - time_milliseconds + (isOT ? GAME_LENGTH : 0)`.
  `GAME_LENGTH` is 300 and is not scaled.
- This version of the file has no player-slot binding, coordinate
  normalisation or mirroring, `invalidated` flag, `clock_stopped` handling
  or snapshot persistence. None of these are modelled.

## Model

| member | source | states |
|---|---|---|
| `EventKeys.Split` | index.js:27 | `split(':')` yields at least one segment. No segment contains `:`. Joining the segments with `:` gives the input back. |
| `EventKeys.SplitJoin` | index.js:27 | Splitting separator-free parts joined with `:` gives exactly those parts back. |
| `EventKeys.KeyRoundTrip` | index.js:27-29 | For `c` and `e` without `:`, the channel and event read from `c:e` are `c` and `e`. |
| `EventKeys.ExtraSegmentsIgnored` | index.js:27-29 | The channel is the text before the first `:`. The event is the segment between the first and second `:`. Later segments are ignored. |
| `EventKeys.NoSeparator` | index.js:27-29 | A key without `:` is all channel, and its event key is `"undefined"`. |
| `Router.RegisterIsSent` | index.js:114-122 | A `wsRelay:register` send always writes exactly one envelope `{event: "wsRelay:register", data: key}` and dispatches nothing. |
| `Router.WsSubscribers.constructor` | index.js:3-7 | The router starts with an empty table, disconnected, an empty queue, nothing sent and nothing called. |
| `Router.WsSubscribers.TriggerSubscribers` | index.js:96-104 | The method loops over the pair's stored list and appends one call per function entry, in list order. It appends nothing for an absent pair. Nothing else changes. |
| `Router.WsSubscribers.Send` | index.js:105-123 | Nothing happens for a non-string channel or event. A `local` send dispatches. Any other send appends the envelope `{event: channel:event, data}`. |
| `Router.WsSubscribers.Subscribe` | index.js:63-89 | A string argument counts as a one-element list. The nested loops end in the state of subscribing the callback along the cross product, channel-major. |
| `Router.WsSubscribers.SubscribeRow` | index.js:75-88 | The inner loop over the events of one channel ends in the state of subscribing along that row. |
| `Router.WsSubscribers.SubscribePair` | index.js:76-87 | Creates the channel and the pair when missing. Announces a new pair: sent when connected, otherwise queued. Then appends the callback. |
| `Router.WsSubscribers.ClearEventCallbacks` | index.js:91-95 | When the pair exists, its channel's table becomes empty. Otherwise nothing changes. |
| `Router.WsSubscribers.OnOpen` | index.js:39-46 | Dispatches `ws:open` and sets the flag. Sends every queued key in queue order, then empties the queue. |
| `Router.WsSubscribers.OnError` | index.js:47-50 | Dispatches `ws:error`, then clears the flag. |
| `Router.WsSubscribers.OnClose` | index.js:51-54 | Dispatches `ws:close`, then clears the flag. |
| `Router.WsSubscribers.OnMessage` | index.js:22-38 | Drops a message without `event`. Otherwise dispatches its data to the first segment and the second segment (or `"undefined"`) of the event. |
| `RouterProofs.InvocationsConcat` | index.js:98-102 | Calls for callbacks registered later come after the calls for earlier ones. |
| `RouterProofs.NonFunctionSkipped` | index.js:99 | A stored non-function is skipped and leaves no trace. |
| `RouterProofs.InvocationsInOrder` | index.js:56-58 | FIFO: when every entry is a function, exactly one call per entry is made, in stored order, with the dispatched data. |
| `RouterProofs.AbsentPairDispatchesNothing` | index.js:97 | Dispatching a pair nobody subscribed to changes nothing. |
| `RouterProofs.PairsMembership` | index.js:74-75 | A pair is in the cross product iff its channel is listed and its event is listed. |
| `RouterProofs.SubscribedLookup` | index.js:76-87 | One subscription appends the callback to its own pair only. The new table has exactly the old pairs plus this one. |
| `RouterProofs.SubscribedFrame` | index.js:76-87 | Subscribing neither changes the connection flag nor invokes a callback. |
| `RouterProofs.SubscribedAllLookup` | index.js:74-89 | Afterwards a pair holds its old callbacks, then the new callback once per occurrence of the pair in the product. |
| `RouterProofs.SubscribedAllHas` | index.js:74-89 | Afterwards the table has exactly the old pairs and the subscribed ones. |
| `RouterProofs.SubscribedAllAnnounces` | index.js:79-86 | The announced keys are those of `Announced`. When connected they are appended to the sent log and the queue is unchanged. When disconnected they are appended to the queue and nothing is sent. |
| `RouterProofs.AnnouncedExactlyOnce` | index.js:79-86 | A pair is announced iff it is subscribed and was not yet in the table. No pair is announced twice. |
| `RouterProofs.AnnouncedFresh` | index.js:79-86 | Distinct fresh pairs are all announced, in subscription order. |
| `RouterProofs.AnnouncedNone` | index.js:79 | Pairs that all exist already are not announced. |
| `RouterProofs.RepeatSubscriptionAnnouncesNothing` | index.js:79-87 | Re-subscribing to existing pairs leaves the queue and the sent log unchanged. |
| `RouterProofs.SubscribeRegistersEveryPair` | index.js:63-89 | `subscribe` appends the callback to `(c, e)` iff `c` is among the channels and `e` among the events. Every other pair is left unchanged. |
| `RouterProofs.FlushedSendsInOrder` | index.js:42-44 | Flushing sends one registration per queued key, in FIFO order, and changes nothing else. |
| `RouterProofs.OpenedFlushesQueue` | index.js:39-46 | After open: the table is unchanged, connected is true, the queue is empty, and the queue's registrations are appended to the sent log. The `ws:open` subscribers' calls are appended too. |
| `RouterProofs.QueuedUntilOpen` | index.js:81-85 | Fresh pairs subscribed while disconnected are not sent. The next open sends them once each, in subscription order, after anything queued before. |
| `RouterProofs.SentWhileOpen` | index.js:81-82 | After an open, a first subscription to a pair is sent at once and not queued. |
| `RouterProofs.QueuedAfterErrorOrClose` | index.js:47-54 | After an error or a close, a first subscription to a pair is queued again and nothing is sent. |
| `RouterProofs.ClearedSilencesChannel` | index.js:91-95 | After clearing an existing pair, no event of that channel invokes anything. Other channels and the rest of the state are unchanged. Clearing an absent pair is a no-op. |
| `RouterProofs.ClearedPairsAreAnnouncedAgain` | index.js:93 | After a clear, subscribing to any event of that channel is announced again. |
| `RouterProofs.SendDispatchesOrWrites` | index.js:105-123 | `send` ignores non-string arguments. A `local` send dispatches and writes nothing. Any other send writes one envelope and invokes nothing. The table, flag and queue never change. |
| `RouterProofs.ReceivedWithoutEventDropped` | index.js:24-26 | A message without `event` changes nothing. |
| `RouterProofs.EnvelopeRoundTrip` | index.js:117-121 | An envelope sent for `(c, e)` is dispatched back to `(c, e)` with the same data when received. |
| `RouterProofs.ReceivedRoutesByFirstTwoSegments` | index.js:27-37 | A message with event `c:e`, or `c:e:...`, is dispatched to `(c, e)`. |
| `GameState.Defaults` | index.js:128-245 | `timeLeft` is 300 and `timePassed` is 0. Both teams have score 0 and exactly 3 all-zero players. There are no `team1_score`/`team2_score` fields. |
| `GameState.AfterTick` | index.js:262-270 | A tick without exactly 6 players changes nothing. Otherwise: outside overtime `timeLeft = t` and `timeLeft + timePassed = 300`; in overtime `timeLeft = 0` and `timePassed = 600 - t`. The scores are copied into `team1_score`/`team2_score` up to a missing team entry. The team records are never changed. |
| `GameState.GameCache.constructor` | index.js:247 | The snapshot starts as `getDefaults()`. |
| `GameState.GameCache.OnInitialized` | index.js:250-252 | The snapshot becomes `getDefaults()`. |
| `GameState.GameCache.OnGoalScored` | index.js:253-258 | The snapshot becomes the one-goal update of the old snapshot. |
| `GameState.GameCache.OnUpdateState` | index.js:262-270 | The snapshot becomes the tick update of the old one. `threw` is true exactly when a team entry is missing in a 6-player tick. |
| `GameState.GoalAddsOnePoint` | index.js:255-256 | A goal adds exactly one point in total: to team 1 iff `teamnum` is 0, else to team 2. Everything else is unchanged. |
| `GameState.GoalTally` | index.js:253-258 | After a run of goals, team 1 gains one point per `teamnum` 0 and team 2 one per other value. Nothing else changes. |
| `GameState.TickIdempotent` | index.js:262-270 | Applying the same tick twice equals applying it once. |
| `GameState.LastTickWins` | index.js:266-269 | After a complete tick, clock and copied scores do not depend on earlier ticks. |
| `GameState.GoalAndTickCommute` | index.js:253-270 | Goals and ticks write disjoint fields, so their order does not matter. |
| `GameState.MixedClockUnits` | index.js:266-267 | A regulation tick at 299000 gives `timeLeft = 299000` and `timePassed = -298700`. |
| `Startup.Start` | index.js:247-262 | The wiring creates the default snapshot and the router, and subscribes the four game handlers in order. |
| `Startup.StartupQueue` | index.js:250-262 | Before the socket opens, the four `game:` keys are queued in subscription order and nothing is sent. |
| `Startup.StartupRegistrations` | index.js:249-262 | On the first open, the four registrations are sent in that order and the queue empties. |

## Left out

- The construction of the `W3CWebSocket`, the relay port and all network I/O
  (index.js:1, 8-10, 20). The transport is the `outbox` log plus the four
  handler methods.
- The debug mode and every `console` call (index.js:11-18, 30-36, 107, 111,
  254, 257, 260). They log only. The `clock_updated_seconds` handler logs
  only, so in the model it is just a subscription.
- `JSON.parse` of inbound text and `JSON.stringify` of outbound envelopes. A
  message is an already-parsed record with an optional string `event`. A
  parse failure, and an `event` that is not a string (where `split` would
  throw), are not modelled.
- The deep copy in `getDefaults`. A datatype value is always fresh, so it
  needs no modelling.
- What callbacks do. Callbacks are opaque identities, so a callback that
  subscribes, sends or throws is not modelled. An exception thrown by a
  callback, which would stop the `forEach` in the source, is not modelled.
- The link from a router call to the game handler it runs. The router's
  payloads are opaque, so `Call(id, data)` entries are not fed to
  `GameCache`.
- JavaScript property-key coercion of non-string array elements, and
  special or inherited keys such as `__proto__`. Channels, events and player
  names are strings.
- A `subscribe` argument that is neither a string nor an array, where
  `forEach` would throw.
- `goal_scored` with a missing `scorer`, which throws. `teamnum` is an
  integer here. The source sends every value other than the number 0 to
  team 2, and the model does the same for integers.
- `update_state` with a missing `players` or `game`, which throws, and a
  team entry without `score`, which copies `undefined`. A missing team entry
  is modelled as the partial update the source makes before it throws. The
  exception itself is reported only as the `threw` result.
- JavaScript numbers are doubles. Clock and score values are unbounded
  integers, so fractional times and rounding are not modelled.
