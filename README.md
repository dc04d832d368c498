# WebSocketManager, modelled in Dafny

The repository ships a small reconnecting-WebSocket manager. It wraps a
`ws` connection and emits `debug`, `ready`, `reconnect`, `disconnect` and
`message` events. After a close it schedules one `setTimeout` retry and
doubles the delay each time. It can stop after a configured number of
retries. Errors and the retry limit end in `traseLog`, which throws.
There are three variants, and their rules differ:

- `src/websocketmanager.ts`: the main class. The default backoff is 5 s.
  The timer increments the counter when a limit is set, compares it with
  `===` against the limit, and otherwise calls `run()` again.
- `build/src/websocketmanager.js`: the compiled class. Its `run()` emits no
  debug event. Its timer checks `resumeCound > maxResume` before it
  increments.
- `src/core.ts`: the basic class. The backoff is 10 s. It has no options,
  no counter and no `send`. Its timer creates a `new WebSocket` without
  attaching callbacks, so at most one retry ever happens.

Each variant is a pure state machine (`TsSpec`, `JsSpec`, `CoreSpec`):
one function per operation, a `Step` over the inputs the transport and the
timer deliver, and `Exec` over a sequence of inputs. Each also has a class
(`TsManager`, `JsManager`, `CoreManager`) with the source's fields. Every
method of a class is proved to produce exactly the state the matching
function gives. Every callback, `Send` and `FireTimer` is also proved to
keep the variant's invariant. `Run`, `Reconnect` and `TraseLog` are the
steps those methods are built from, and carry only the first promise.

The TypeScript and the compiled manager share their state type, their
callbacks, `reconnect()`, `send()` and `traseLog()`. Their invariants share
`TsSpec.Settled`, which covers the event log, the connection and the
backoff. Each adds its own counter part, `TsSpec.CounterInv` or
`JsSpec.CounterInv`. So the lemmas about the callbacks are stated once,
against `Settled`, and hold of both managers.

How the environment is represented:

- A transport callback or the timer firing is a method call.
- `emit` appends a tagged `Event` to a ghost log. Debug events keep only
  what a property needs: `RunInfo`, `RetryIn(ms)` and `Retrying`.
- The pending `setTimeout` is one optional slot holding its delay in ms.
  `FireTimer` consumes it.
- The error `traseLog` throws moves the manager to `Fatal(origin, message)`.
  Nothing runs after that.
- A connection is a token: its number, and whether it has reported close.
  In `CoreSpec` it also records whether `run()` attached the callbacks.
- Only the current connection delivers events, and only until it has
  reported close. `Admissible` states this, and `Step` ignores any other
  input.

Where the code and its documentation disagree, the model follows the code:

- The options comment says the default backoff is 10 s
  (`src/websocketmanager.ts:42`). The constructor sets 5
  (`src/websocketmanager.ts:71`).
- `isReconnect` is only ever assigned `false`. So every open emits `ready`,
  and `reconnect` is never emitted.
- The TypeScript timer and the compiled timer differ. With limit K >= 1,
  the TypeScript one goes fatal on fire K. With K <= 0 it never goes
  fatal, because the counter is incremented before the `===` test, so
  retries never stop. With K >= 0 the compiled one goes fatal on fire
  K + 2. With K < 0 it goes fatal on the first fire.

## Model

| member | source | states |
|---|---|---|
| WsCommon.Option.GetOr | src/websocketmanager.ts:121 | `??`: the value when present, the default otherwise |
| WsCommon.FatalMessage | src/websocketmanager.ts:133-135 | the thrown text is the title, `" \n\n "`, the description and `" \n"`, in that order and with that length |
| WsCommon.ErrorTitle | src/websocketmanager.ts:121 | the error's message, or "Unknown WebSocket Error" when it has none |
| WsCommon.ErrorDescription | src/websocketmanager.ts:121 | the error's cause, or "Cause from Unknown Error" when it has none |
| WsCommon.DoubledIsPow2 | src/websocketmanager.ts:95 | doubling the backoff n times multiplies it by 2^n |
| WsCommon.DelayIsPow2 | src/websocketmanager.ts:86-98 | the identity behind the delays: the backoff doubled n times, in ms, equals init * 2^n * 1000; `TsSpec.SettledBackoff` and `TsSpec.CloseSchedulesOneRetry` apply it to the scheduled delays |
| WsCommon.AppendEvent | src/websocketmanager.ts:86-126 | emitting an event that is not `reconnect` or `disconnect("Connect")`, with any scheduled delay being the next doubling, keeps the log invariant; it adds one retry exactly for "Retrying...." and one delay exactly for a scheduling debug event |
| TsSpec.Construct | src/websocketmanager.ts:67-83 | backoff 5 s unless the option is present, no limit unless the option is present, counter 0, `isReconnect` false, exactly one connection opened, one debug event, nothing pending |
| TsSpec.Run | src/websocketmanager.ts:101-104 | a new connection with the next number, not closed, and one debug event |
| TsSpec.TraseLog | src/websocketmanager.ts:133-135 | the manager becomes fatal with the formatted message |
| TsSpec.OnMessage | src/websocketmanager.ts:124-126 | the payload is appended unchanged as a `message` event, and nothing else changes |
| TsSpec.Send | src/websocketmanager.ts:129-131 | the payload goes unchanged to the current connection, and nothing else changes |
| TsSpec.Reconnect | src/websocketmanager.ts:85-88 | no contract of its own; `TsSpec.CloseSchedulesOneRetry` and `TsSpec.CloseEffect` state what it does within a close: the debug event and one pending retry of the current backoff in ms |
| TsSpec.OnOpen | src/websocketmanager.ts:106-112 | no contract of its own; `TsSpec.OpenEmitsReady` states it: `ready` on every open, backoff and counter kept |
| TsSpec.OnClose | src/websocketmanager.ts:114-117 | no contract of its own; `TsSpec.CloseSchedulesOneRetry` and `TsSpec.CloseEffect` state it |
| TsSpec.OnError | src/websocketmanager.ts:119-122 | no contract of its own; `TsSpec.ErrorIsFatal` states it |
| TsSpec.FireTimer | src/websocketmanager.ts:88-98 | no contract of its own; it is the setTimeout callback, and `TsSpec.FireOutcome` states it: increment with a limit, fatal exactly at the limit, otherwise "Retrying....", double and run() |
| TsSpec.Step | src/websocketmanager.ts:101-131 | no contract of its own; one transport or timer input, and an input that cannot occur changes nothing; `TsSpec.StepInv` and `TsSpec.FatalIsFinal` state what it keeps |
| TsSpec.Exec | src/websocketmanager.ts:101-131 | no contract of its own; the inputs in order; `TsSpec.ExecInv`, `TsSpec.Reachable` and the lemmas over `Exec(Construct(..), inputs)` state it |
| TsSpec.ConstructInv | src/websocketmanager.ts:67-83 | a newly constructed manager satisfies the invariant |
| TsSpec.OpenSettled | src/websocketmanager.ts:106-112 | an open keeps the log and connection invariant both managers share, and completes no retry |
| TsSpec.MessageSettled | src/websocketmanager.ts:124-126 | a message keeps the shared invariant, and completes no retry |
| TsSpec.ErrorSettled | src/websocketmanager.ts:119-122 | an error keeps the shared invariant, and completes no retry |
| TsSpec.CloseSettled | src/websocketmanager.ts:114-117 | a close keeps the shared invariant: the delay it schedules is the next doubling; it completes no retry |
| TsSpec.OpenInv | src/websocketmanager.ts:106-112 | an open keeps the invariant |
| TsSpec.MessageInv | src/websocketmanager.ts:124-126 | a message keeps the invariant |
| TsSpec.ErrorInv | src/websocketmanager.ts:119-122 | an error keeps the invariant |
| TsSpec.CloseInv | src/websocketmanager.ts:114-117 | a close keeps the invariant: one more delay is scheduled, and it is the next doubling |
| TsSpec.FireInv | src/websocketmanager.ts:88-98 | a timer fire keeps the invariant, whether it goes fatal or retries |
| TsSpec.StepInv | src/websocketmanager.ts:101-131 | every input keeps the invariant |
| TsSpec.ExecInv | src/websocketmanager.ts:101-131 | every sequence of inputs keeps the invariant |
| TsSpec.ExecKeepsConfig | src/websocketmanager.ts:70-80 | the url and the retry limit are set only by the constructor |
| TsSpec.FatalIsFinal | src/websocketmanager.ts:133-135 | once the error is thrown, no input changes anything |
| TsSpec.Reachable | src/websocketmanager.ts:67-131 | every state reachable from construction satisfies the invariant |
| TsSpec.SettledBackoff | src/websocketmanager.ts:86-102 | in any state with the shared invariant, after N completed retries the backoff is initial * 2^N, the k-th scheduled delay (from 0) is initial * 2^k * 1000 ms, N + 1 connections were opened and the handle is the newest one |
| TsSpec.Backoff | src/websocketmanager.ts:86-102 | in every run: after N completed retries the backoff is initial * 2^N, the k-th scheduled delay (from 0) is initial * 2^k * 1000 ms, N + 1 connections were opened and the handle is the newest one |
| TsSpec.NeverReconnects | src/websocketmanager.ts:106-112 | `isReconnect` stays false, `reconnect` is never emitted, and no `disconnect` carries "Connect" |
| TsSpec.CounterOnlyWithLimit | src/websocketmanager.ts:90-91 | without a limit the counter stays 0 and the limit never fires; with a limit the counter equals the number of timer fires |
| TsSpec.LimitFiresOnKthFire | src/websocketmanager.ts:90-97 | with limit K >= 1 at most K - 1 retries complete and the limit fires exactly on fire K; with K <= 0 it never fires |
| TsSpec.FireOutcome | src/websocketmanager.ts:88-98 | a fire is fatal exactly when the limit equals the number of fires so far; a fatal fire has the limit message and does not double, connect or emit; any other fire doubles the backoff, opens one connection and emits "Retrying...." and the run debug event |
| TsSpec.CloseSchedulesOneRetry | src/websocketmanager.ts:114-117 | a close emits `disconnect("Disconnect")` and one debug event, and schedules exactly one retry for initial * 2^N * 1000 ms; backoff and counter are unchanged; holds of both managers |
| TsSpec.CloseEffect | src/websocketmanager.ts:114-117 | the events, the pending delay and the scheduled delays after a close |
| TsSpec.ErrorIsFatal | src/websocketmanager.ts:119-122 | an error emits `disconnect("Error")` and becomes fatal with the error's message and cause or their defaults; no retry is scheduled; holds of both managers |
| TsSpec.OpenEmitsReady | src/websocketmanager.ts:106-112 | every open emits `ready` and resets neither the backoff nor the counter, in both managers |
| TsSpec.LimitTwoScenario | src/websocketmanager.ts:88-98 | with limit 2 and a 1 s backoff, close, fire, close, fire ends fatal after one retry, with backoff 2 and counter 2 |
| TsManager.WebSocketManager.constructor | src/websocketmanager.ts:67-83 | the fields are those of `TsSpec.Construct`, and the invariant holds |
| TsManager.WebSocketManager.Run | src/websocketmanager.ts:101-104 | the new state is `TsSpec.Run` of the old one |
| TsManager.WebSocketManager.Reconnect | src/websocketmanager.ts:85-88 | the debug event and the pending delay of the current backoff |
| TsManager.WebSocketManager.TraseLog | src/websocketmanager.ts:133-135 | the manager becomes fatal with the formatted message |
| TsManager.WebSocketManager.OnOpen | src/websocketmanager.ts:106-112 | the new state is `TsSpec.OnOpen` of the old one, and the invariant is kept |
| TsManager.WebSocketManager.OnClose | src/websocketmanager.ts:114-117 | the new state is `TsSpec.OnClose` of the old one, and the invariant is kept |
| TsManager.WebSocketManager.OnError | src/websocketmanager.ts:119-122 | the new state is `TsSpec.OnError` of the old one, and the invariant is kept |
| TsManager.WebSocketManager.OnMessage | src/websocketmanager.ts:124-126 | the new state is `TsSpec.OnMessage` of the old one, and the invariant is kept |
| TsManager.WebSocketManager.Send | src/websocketmanager.ts:129-131 | the new state is `TsSpec.Send` of the old one, and the invariant is kept |
| TsManager.WebSocketManager.FireTimer | src/websocketmanager.ts:88-98 | the new state is `TsSpec.FireTimer` of the old one, and the invariant is kept |
| JsSpec.Run | build/src/websocketmanager.js:35-36 | a new connection with the next number, and no event emitted |
| JsSpec.Construct | build/src/websocketmanager.js:8-21 | backoff 5 s unless the option is present, no limit unless the option is present, counter 0, `isReconnect` false, one connection, an empty log |
| JsSpec.FireTimer | build/src/websocketmanager.js:24-33 | no contract of its own; it is the setTimeout callback, and `JsSpec.FireOutcome` states it: fatal exactly when the counter already exceeds the limit, otherwise count with a limit, "Retrying....", double and run() |
| JsSpec.Step | build/src/websocketmanager.js:22-60 | no contract of its own; the TypeScript callbacks and send with this manager's timer, and an input that cannot occur changes nothing; `JsSpec.StepInv` states what it keeps |
| JsSpec.Exec | build/src/websocketmanager.js:22-60 | no contract of its own; the inputs in order; `JsSpec.ExecInv`, `JsSpec.Reachable` and the lemmas over `Exec(Construct(..), inputs)` state it |
| JsSpec.OpenInv | build/src/websocketmanager.js:37-44 | an open keeps the invariant |
| JsSpec.MessageInv | build/src/websocketmanager.js:54-56 | a message keeps the invariant |
| JsSpec.ErrorInv | build/src/websocketmanager.js:49-53 | an error keeps the invariant |
| JsSpec.CloseInv | build/src/websocketmanager.js:45-48 | a close keeps the invariant |
| JsSpec.FireInv | build/src/websocketmanager.js:24-33 | a timer fire keeps the invariant |
| JsSpec.StepInv | build/src/websocketmanager.js:22-60 | every input keeps the invariant |
| JsSpec.ExecInv | build/src/websocketmanager.js:22-60 | every sequence of inputs keeps the invariant |
| JsSpec.ExecKeepsConfig | build/src/websocketmanager.js:10-18 | the url and the retry limit are set only by the constructor |
| JsSpec.Reachable | build/src/websocketmanager.js:8-63 | every state reachable from construction satisfies the invariant |
| JsSpec.Backoff | build/src/websocketmanager.js:29-32 | after N completed retries the backoff is initial * 2^N, the k-th delay is initial * 2^k * 1000 ms, N + 1 connections were opened and the handle is the newest one |
| JsSpec.NeverReconnects | build/src/websocketmanager.js:37-44 | `isReconnect` stays false, `reconnect` is never emitted, and no `disconnect` carries "Connect" |
| JsSpec.LimitFiresLate | build/src/websocketmanager.js:25-32 | with limit K >= 0 at most K + 1 retries complete and the fatal fire is fire K + 2; with K < 0 the first fire is fatal; without a limit the counter stays 0 |
| JsSpec.FireOutcome | build/src/websocketmanager.js:24-33 | a fire is fatal exactly when a limit is set and the retries so far exceed it; a fatal fire changes no counter, backoff, connection or log; any other fire counts (with a limit), doubles, connects and emits "Retrying...." only |
| JsSpec.LimitZeroScenario | build/src/websocketmanager.js:24-33 | with limit 0 and a 1 s backoff, the first fire retries and the second is fatal |
| JsManager.WebSocketManager.constructor | build/src/websocketmanager.js:8-21 | the fields are those of `JsSpec.Construct`, and the invariant holds |
| JsManager.WebSocketManager.Run | build/src/websocketmanager.js:35-36 | the new state is `JsSpec.Run` of the old one |
| JsManager.WebSocketManager.Reconnect | build/src/websocketmanager.js:22-24 | the debug event and the pending delay of the current backoff |
| JsManager.WebSocketManager.TraseLog | build/src/websocketmanager.js:61-63 | the manager becomes fatal with the formatted message |
| JsManager.WebSocketManager.OnOpen | build/src/websocketmanager.js:37-44 | the new state is `TsSpec.OnOpen` of the old one, and the invariant is kept |
| JsManager.WebSocketManager.OnClose | build/src/websocketmanager.js:45-48 | the new state is `TsSpec.OnClose` of the old one, and the invariant is kept |
| JsManager.WebSocketManager.OnError | build/src/websocketmanager.js:49-53 | the new state is `TsSpec.OnError` of the old one, and the invariant is kept |
| JsManager.WebSocketManager.OnMessage | build/src/websocketmanager.js:54-56 | the new state is `TsSpec.OnMessage` of the old one, and the invariant is kept |
| JsManager.WebSocketManager.Send | build/src/websocketmanager.js:58-60 | the new state is `TsSpec.Send` of the old one, and the invariant is kept |
| JsManager.WebSocketManager.FireTimer | build/src/websocketmanager.js:24-33 | the new state is `JsSpec.FireTimer` of the old one, and the invariant is kept |
| CoreSpec.Run | src/core.ts:32-33 | a new connection with the next number, with callbacks, and no event emitted |
| CoreSpec.Construct | src/core.ts:13-21 | backoff 10 s, `isReconnect` false, exactly one connection with callbacks, an empty log, nothing pending |
| CoreSpec.TraseLog | src/core.ts:58-60 | the manager becomes fatal with the formatted message |
| CoreSpec.OnMessage | src/core.ts:53-55 | the payload is appended unchanged as a `message` event, and nothing else changes |
| CoreSpec.Reconnect | src/core.ts:23-29 | no contract of its own; `CoreSpec.CloseSchedulesRetry` and `CoreSpec.CloseEffect` state what it does within a close |
| CoreSpec.OnOpen | src/core.ts:35-41 | no contract of its own; `CoreSpec.OpenEmitsReady` states it |
| CoreSpec.OnClose | src/core.ts:43-46 | no contract of its own; `CoreSpec.CloseSchedulesRetry` and `CoreSpec.CloseEffect` state it |
| CoreSpec.OnError | src/core.ts:48-51 | no contract of its own; `CoreSpec.ErrorIsFatal` states it |
| CoreSpec.FireTimer | src/core.ts:26-29 | no contract of its own; it is the setTimeout callback, and `CoreSpec.FireOpensSilentConnection` states it: backoff doubled to 20 s and a second connection without callbacks, nothing emitted |
| CoreSpec.Step | src/core.ts:23-56 | no contract of its own; one input, where a connection without callbacks only records its close; `CoreSpec.StepInv` and `CoreSpec.SilentAfterRetry` state it |
| CoreSpec.Exec | src/core.ts:23-56 | no contract of its own; the inputs in order; `CoreSpec.ExecInv`, `CoreSpec.Reachable` and `CoreSpec.AtMostOneRetry` state it |
| CoreSpec.OpenInv | src/core.ts:35-41 | an open keeps the invariant |
| CoreSpec.MessageInv | src/core.ts:53-55 | a message keeps the invariant |
| CoreSpec.ErrorInv | src/core.ts:48-51 | an error keeps the invariant |
| CoreSpec.CloseInv | src/core.ts:43-46 | a close of the first connection keeps the invariant |
| CoreSpec.FireInv | src/core.ts:26-29 | the timer fire keeps the invariant |
| CoreSpec.StepInv | src/core.ts:23-56 | every input keeps the invariant, including the events of the connection without callbacks |
| CoreSpec.ExecInv | src/core.ts:23-56 | every sequence of inputs keeps the invariant |
| CoreSpec.Reachable | src/core.ts:13-56 | every state reachable from construction satisfies the invariant |
| CoreSpec.AtMostOneRetry | src/core.ts:23-29 | at most two connections, at most one scheduled delay and it is 10000 ms, and the backoff is 10 s, or 20 s exactly when the second connection exists |
| CoreSpec.SilentAfterRetry | src/core.ts:26-29 | once the timer has fired, no input emits an event, opens a connection or changes the phase |
| CoreSpec.NeverReconnects | src/core.ts:35-41 | `isReconnect` stays false, `reconnect` is never emitted, and no `disconnect` carries "Connect" |
| CoreSpec.OpenEmitsReady | src/core.ts:35-41 | every open of the first connection emits `ready` and keeps the backoff and the pending retry |
| CoreSpec.CloseSchedulesRetry | src/core.ts:43-46 | a close of the first connection emits `disconnect("Disconnect")` and one debug event, and schedules the only retry, for 10000 ms |
| CoreSpec.CloseEffect | src/core.ts:43-46 | the events, the pending delay and the scheduled delays after a close |
| CoreSpec.FireOpensSilentConnection | src/core.ts:26-29 | the fire doubles the backoff to 20 s and opens a second connection without callbacks, emitting nothing |
| CoreSpec.ErrorIsFatal | src/core.ts:48-51 | an error emits `disconnect("Error")` and becomes fatal with the error's message and cause or their defaults |
| CoreSpec.OneRetryScenario | src/core.ts:23-56 | close, fire, open, close, fire emits only the first close's two events, and ends with two connections and a 20 s backoff |
| CoreManager.WebSocketManager.constructor | src/core.ts:13-21 | the fields are those of `CoreSpec.Construct`, and the invariant holds |
| CoreManager.WebSocketManager.Run | src/core.ts:32-33 | the new state is `CoreSpec.Run` of the old one |
| CoreManager.WebSocketManager.Reconnect | src/core.ts:23-26 | the debug event and the pending delay of the current backoff |
| CoreManager.WebSocketManager.TraseLog | src/core.ts:58-60 | the manager becomes fatal with the formatted message |
| CoreManager.WebSocketManager.OnOpen | src/core.ts:35-41 | the new state is `CoreSpec.OnOpen` of the old one, and the invariant is kept |
| CoreManager.WebSocketManager.OnClose | src/core.ts:43-46 | the new state is `CoreSpec.OnClose` of the old one, and the invariant is kept |
| CoreManager.WebSocketManager.OnError | src/core.ts:48-51 | the new state is `CoreSpec.OnError` of the old one, and the invariant is kept |
| CoreManager.WebSocketManager.OnMessage | src/core.ts:53-55 | the new state is `CoreSpec.OnMessage` of the old one, and the invariant is kept |
| CoreManager.WebSocketManager.FireTimer | src/core.ts:26-29 | the new state is `CoreSpec.FireTimer` of the old one, and the invariant is kept |

## Left out

- The `ws` transport and the network. `new WebSocket(url)` is a numbered token. Opens, closes, errors and messages are inputs, delivered only by the current connection until it reports close. What `ws` does with an error event on a connection that has no listener is not modelled. In `CoreSpec` such events change nothing.
- `EventEmitter` dispatch and `on`/`once` registration. `emit` only appends to the log.
- `src/core.ts` does not extend an emitter, so its `this.emit` calls would fail at run time. The model follows the declared `emit` interface (`src/core.ts:64-81`) and treats those calls as emitting.
- Real time and `setTimeout` scheduling. There is one pending-delay slot and an explicit `FireTimer`.
- JavaScript `number` semantics. The backoff and the limit are unbounded integers. Fractional, NaN and Infinity values are not modelled, and neither is overflow after many doublings.
- The `BufferLike` union (`src/websocketmanager.ts:168-185`) and `MessageEvent`. Payloads are opaque byte sequences, passed through unchanged.
- The interpolated text of debug messages (url, numbers, `maxResume`). Debug events are tags. The scheduling tag keeps its delay in ms.
- `null` passed as `setMaxResume` behaves like an absent option, so both are `None`.
- The transient `websocket = void 0` before `run()` in the constructor and the timer. The handle is `None` for one statement and is then overwritten.
- `WebSocketManagerError` (`./components/error`) is not part of this model. Only its message string is kept.
- `build/src/core.js` is the compiled copy of `src/core.ts` and is covered by `CoreSpec`. `build/src/core.d.ts` only declares types, and it declares a `send` that `src/core.ts` does not implement.
- Calls made after the error has been thrown: the class methods require the live phase, and `Step` ignores them.
- TsSpec.Run: its contract does not say that the other fields are unchanged. The class method `Run` pins the whole new state to the function.
- TsSpec.TraseLog: its contract does not say that the other fields are unchanged, for the same reason.
- JsSpec.Run: its contract does not say that the fields other than the connection are unchanged, for the same reason.
- CoreSpec.Run: its contract does not say that the other fields are unchanged, for the same reason.
- CoreSpec.TraseLog: its contract does not say that the other fields are unchanged, for the same reason.
