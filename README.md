# Merlinfest realtime client, modelled in Dafny

Merlinfest is a small festival web application. Its realtime layer is on the client side. It has three parts:

- the **socket service** (`SocketService`, `src/lib/socketService.ts`). It holds at most one socket.io socket, keeps its own registry of listener callbacks keyed by event name, and sends three kinds of intent to the server.
- the **`useSocket` hook** (`src/hooks/useSocket.ts`). It keeps a local copy of the shared visual state, the user count and a connection flag. It applies optimistic updates for the user's own intents and replaces its copy when the server sends a snapshot.
- the **theme picker** of the 3D viewer (`src/components/MerlinViewer.tsx`). It maps a theme id to the model file to load.

The project has five modules:

- `Wrappers` (`wrappers.dfy`): an `Option` type.
- `VisualData` (`visual_data.dfy`): the records `VisualParameters`, `VisualState` and `Partial<VisualState>`. A timestamp is an opaque integer supplied by the caller.
- `ClientSocket` (`socket_service.dfy`): the service.
  - Each operation is a step function on a `ServiceState` value: `ConnectStep`, `DisconnectStep`, `SubscribeStep`, `UnsubscribeStep`, `EmitStep`, `TransportStep` and `Dispatched`. The lemmas state the service's promises about these functions.
  - The class `SocketService` keeps the same data in mutable fields (`socket`, `callbacks`, the outbox and a socket counter). Each of its methods is specified by the matching step function.
  - `_triggerCallbacks` is a loop method, `TriggerCallbacks`, proved against `Fanout`.
  - The lazily created module-level instance is the class `ServiceSlot`.
- `UseSocket` (`use_socket.dfy`): the hook.
  - Its reducers are functions on `HookState`: the initial state, `MergeUpdate`, `ApplyTheme` and `OnEvent` for the five listened events.
  - The hook's `updateVisuals`, `changeTheme` and `triggerEffect` pair a reducer with the service's send step.
  - `SeedConnection` is `connect()` followed by seeding the flag from `isConnected()`.
- `MerlinViewer` (`merlin_viewer.dfy`): the `THEMES` list, the theme→path switch, and the (`activeTheme`, `modelPath`) pair with its consistency invariant.

The transport is abstract:

- A socket is a value `Socket(id, connected)`. Every `connect` that creates a socket gives it a new id, taken from a counter.
- `socket.emit` appends a `Message` to an outbox.
- A callback is an opaque identity. Calling one is recorded as an `Invocation` of that identity with its argument.
- Events the transport reports (`connect`, `connect_error`, `disconnect` and the server's messages) reach the service through `SocketService.Deliver`. It updates the socket's `connected` flag as socket.io does, then runs what the listener installed by `connect` runs.

## Model

| member | source | states |
|---|---|---|
| `ClientSocket.NewService` | src/lib/socketService.ts:29-38 | the state of a new service; specified by `NewServiceShape` (seven empty lists, no socket, nothing sent) |
| `ClientSocket.ConnectStep` | src/lib/socketService.ts:41-51 | `connect` on the service's data; specified by `ConnectIdempotent`, `ConnectKeepsSocket` and `StepsPreserveValid` |
| `ClientSocket.DisconnectStep` | src/lib/socketService.ts:95-99 | `disconnect` on the service's data; specified by `DisconnectThenConnect` and `StepsPreserveValid` |
| `ClientSocket.SocketConnected` | src/lib/socketService.ts:123-125 | the `connected` flag of a present socket, false without one; specified by `ConnectedFlagFollowsTransport`, `ConnectKeepsSocket` and `SeedFollowsService` |
| `ClientSocket.SubscribeStep` | src/lib/socketService.ts:102-106 | `on` on the service's data; specified by `SubscribeAppends`, `SubscribeUnsubscribeRestores` and `SubscribedIsCalledLast` |
| `ClientSocket.UnsubscribeStep` | src/lib/socketService.ts:108-112 | the unsubscribe closure on the service's data; specified by `UnsubscribeEffect`, `UnsubscribedIsNotCalled` and `SubscribeUnsubscribeRestores` |
| `ClientSocket.Fanout` | src/lib/socketService.ts:116-120 | what `_triggerCallbacks` calls; specified by `FanoutInOrder`, and the loop `SocketService.TriggerCallbacks` is proved equal to it |
| `ClientSocket.EmitStep` | src/lib/socketService.ts:127-143 | the guard and `emit` shared by the three senders; specified by `EmitGuard` |
| `ClientSocket.MessageName` | src/lib/socketService.ts:130-142 | the event name each message is emitted under; specified by `MessageNames` |
| `ClientSocket.Forwarded` | src/lib/socketService.ts:53-91 | the listeners `connect` installs: which registry event each transport event is forwarded to, with which data; specified by `ForwardedToSameName` |
| `ClientSocket.TransportStep` | src/lib/socketService.ts:54-66 | the socket's `connected` flag as the transport reports `connect` and `disconnect`; specified by `ConnectedFlagFollowsTransport`, `DeliverRunsListeners` and `StepsPreserveValid` |
| `ClientSocket.Dispatched` | src/lib/socketService.ts:53-91 | the callbacks run when the current socket reports an event; specified by `DeliverRunsListeners` and `ConnectErrorListenersNeverRun` |
| `ClientSocket.InitialRegistry` | src/lib/socketService.ts:30-38 | the initial registry has exactly the seven listed event names as keys, each with an empty callback list |
| `ClientSocket.NewServiceShape` | src/lib/socketService.ts:29-38 | a new service has exactly seven registered keys, all with empty lists, no socket and nothing sent |
| `ClientSocket.ConnectIdempotent` | src/lib/socketService.ts:41-51 | calling `connect` twice is the same as calling it once; afterwards a socket exists; at most one socket is created; listeners and outbox are untouched |
| `ClientSocket.ConnectKeepsSocket` | src/lib/socketService.ts:41-51 | with a socket present `connect` changes nothing; a newly created socket is not yet connected |
| `ClientSocket.DisconnectThenConnect` | src/lib/socketService.ts:95-99 | `disconnect` without a socket is a no-op; otherwise it clears the socket and nothing else; it is idempotent; a later `connect` creates a socket different from the one dropped |
| `ClientSocket.StepsPreserveValid` | src/lib/socketService.ts:41-143 | every operation keeps the invariant that a present socket is one the service created |
| `ClientSocket.SubscribeAppends` | src/lib/socketService.ts:102-106 | `on(e, cb)` makes `e` a key and puts `cb` at the end of `e`'s previous list (empty if `e` was new); every other event's list and the socket are unchanged |
| `ClientSocket.Without` | src/lib/socketService.ts:109-111 | the filtered list no longer contains the callback, only contains elements of the original, and is no longer than it |
| `ClientSocket.WithoutCounts` | src/lib/socketService.ts:109-111 | filtering removes every occurrence of the callback and keeps every other callback as many times as before |
| `ClientSocket.WithoutConcat` | src/lib/socketService.ts:109-111 | filtering works piecewise over concatenation, so the remaining callbacks keep their original order |
| `ClientSocket.WithoutAbsent` | src/lib/socketService.ts:109-111 | filtering a list that does not contain the callback returns it unchanged |
| `ClientSocket.WithoutIdempotent` | src/lib/socketService.ts:109-111 | filtering twice equals filtering once |
| `ClientSocket.SubscribeUnsubscribeRestores` | src/lib/socketService.ts:102-112 | subscribing a callback not already listed and then calling its unsubscribe gives back the original list for that event |
| `ClientSocket.UnsubscribeEffect` | src/lib/socketService.ts:108-112 | the unsubscribe removes every occurrence of its callback from its event and keeps the others with their counts; other events, the keys, the socket and the outbox are untouched; calling it again changes nothing |
| `ClientSocket.Calls` | src/lib/socketService.ts:118 | fanning out to a list makes exactly one call per registration |
| `ClientSocket.CallsAt` | src/lib/socketService.ts:118 | the i-th call goes to the i-th registered callback, with the payload unchanged |
| `ClientSocket.CallsConcat` | src/lib/socketService.ts:118 | fanning out over two concatenated lists is the first list's calls followed by the second's |
| `ClientSocket.FanoutInOrder` | src/lib/socketService.ts:116-120 | triggering an event calls each registered callback once per registration, in registration order, with the same payload; an unknown event calls nothing |
| `ClientSocket.SubscribedIsCalledLast` | src/lib/socketService.ts:102-120 | after `on(e, cb)`, triggering `e` makes the previous calls and then one call to `cb` |
| `ClientSocket.UnsubscribedIsNotCalled` | src/lib/socketService.ts:108-120 | after unsubscribing, triggering the event never calls that callback |
| `ClientSocket.EmitGuard` | src/lib/socketService.ts:127-143 | each sender appends exactly its one message when a socket exists, connected or not (the guard tests the socket slot, not `isConnected()`); otherwise it changes nothing and queues nothing; socket and listeners are untouched |
| `ClientSocket.MessageNames` | src/lib/socketService.ts:128-143 | messages go out as "update-visuals", "change-theme" and "trigger-effect"; two messages with the same name are of the same kind |
| `ClientSocket.ForwardedToSameName` | src/lib/socketService.ts:53-91 | every forwarded transport event reaches callbacks registered under its own name, one of the seven initial keys, with its data unchanged; exactly `connect_error` and unlistened server events are not forwarded |
| `ClientSocket.ConnectErrorListenersNeverRun` | src/lib/socketService.ts:59-61 | callbacks registered under `connect_error` are never called: changing that list changes nothing that any event dispatches |
| `ClientSocket.DeliverRunsListeners` | src/lib/socketService.ts:53-91 | a forwarded event on a present socket calls the callbacks registered under its name, in order; the registry and outbox are unchanged |
| `ClientSocket.ConnectedFlagFollowsTransport` | src/lib/socketService.ts:122-125 | `isConnected()` is true after the transport reports `connect`, false after `disconnect`, and false when there is no socket |
| `ClientSocket.SocketService.constructor` | src/lib/socketService.ts:28-38 | a new service is in the initial state (no socket, initial registry, nothing sent) and valid |
| `ClientSocket.SocketService.Connect` | src/lib/socketService.ts:41-51 | the new state is `ConnectStep` of the old one |
| `ClientSocket.SocketService.Disconnect` | src/lib/socketService.ts:95-99 | the new state is `DisconnectStep` of the old one |
| `ClientSocket.SocketService.On` | src/lib/socketService.ts:102-113 | the new state is `SubscribeStep` of the old one; the returned unsubscribe refers to this event and callback, and the event is now a key |
| `ClientSocket.SocketService.Unsubscribe` | src/lib/socketService.ts:108-112 | the new state is `UnsubscribeStep` of the old one |
| `ClientSocket.SocketService.TriggerCallbacks` | src/lib/socketService.ts:116-120 | the calls made are `Fanout` of the registry: one per registered callback, in order, each with the given payload |
| `ClientSocket.SocketService.IsConnected` | src/lib/socketService.ts:123-125 | returns true exactly when a socket exists and the transport says it is connected |
| `ClientSocket.SocketService.UpdateVisuals` | src/lib/socketService.ts:128-131 | the new state is `EmitStep` with an "update-visuals" message |
| `ClientSocket.SocketService.ChangeTheme` | src/lib/socketService.ts:134-137 | the new state is `EmitStep` with a "change-theme" message |
| `ClientSocket.SocketService.TriggerEffect` | src/lib/socketService.ts:140-143 | the new state is `EmitStep` with a "trigger-effect" message |
| `ClientSocket.SocketService.Deliver` | src/lib/socketService.ts:53-91 | the new state is `TransportStep` of the old one; the callbacks run are `Dispatched` for the event |
| `ClientSocket.ServiceSlot.constructor` | src/lib/socketService.ts:158 | the instance slot starts empty, which satisfies the slot's invariant |
| `ClientSocket.ServiceSlot.GetSocketService` | src/lib/socketService.ts:161-170 | the first call creates a fresh service in the initial state; every later call returns the same object with its state unchanged; the returned service is always valid, so it can be connected and used |
| `ClientSocket.GetSocketServiceTwice` | src/lib/socketService.ts:161-170 | two calls of `getSocketService` return the same service, and the slot stays valid |
| `ClientSocket.GetSocketServiceAndConnect` | src/hooks/useSocket.ts:24-77 | fetching the shared service and calling `connect()`, as every mount of the hook does, leaves the slot valid and the service with a socket; its new state is `ConnectStep` of its state before, or of a new service's on the first call |
| `UseSocket.MergeUpdate` | src/hooks/useSocket.ts:96-100 | the optimistic shallow merge; specified by `MergeFieldwise`, `MergeIdempotent`, `MergeCompose` and `MergeExtremes` |
| `UseSocket.ApplyTheme` | src/hooks/useSocket.ts:106-110 | the local theme overwrite; specified by `ThemeIsThemeOnlyMerge` |
| `UseSocket.HookUpdateVisuals` | src/hooks/useSocket.ts:93-101 | the hook's `updateVisuals`: send, then merge locally; specified by `OptimisticWithoutSocket` and `SnapshotOverridesOptimistic` |
| `UseSocket.HookChangeTheme` | src/hooks/useSocket.ts:103-111 | the hook's `changeTheme`: send, then overwrite the theme locally; specified by `OptimisticWithoutSocket` |
| `UseSocket.HookTriggerEffect` | src/hooks/useSocket.ts:113-115 | the hook's `triggerEffect`: send only; specified by `EffectsLeaveHookState` |
| `UseSocket.TriggerAll` | src/hooks/useSocket.ts:113-115 | `triggerEffect` called once per id, in order; specified by `EffectsLeaveHookState` |
| `UseSocket.OnEvent` | src/hooks/useSocket.ts:48-58 | the five event handlers; specified by `ConnectionFlag`, `SnapshotReplaces`, `UserCountOnly` and `SnapshotOverridesOptimistic` |
| `UseSocket.SeedConnection` | src/hooks/useSocket.ts:76-80 | `connect()` then `setIsConnected(isConnected())`; specified by `SeedFollowsService` |
| `UseSocket.InitialVisualState` | src/hooks/useSocket.ts:30-40 | the initial visual state is theme "default", speed 50, intensity 50, colour "#ff5500", no effects, 0 active users, stamped with the given time |
| `UseSocket.InitialHookState` | src/hooks/useSocket.ts:27-43 | the hook starts disconnected, with user count 0 and the initial visual state |
| `UseSocket.MergeFieldwise` | src/hooks/useSocket.ts:96-100 | fields present in the partial overwrite; absent fields keep their values; a present `parameters` replaces the whole record; `lastUpdated` is always now, even if the partial carried one |
| `UseSocket.MergeIdempotent` | src/hooks/useSocket.ts:96-100 | merging the same partial twice at the same time equals merging it once |
| `UseSocket.MergeCompose` | src/hooks/useSocket.ts:96-100 | two merges in a row equal one merge of the later partial laid over the earlier one, stamped with the later time (the last writer wins per field) |
| `UseSocket.MergeExtremes` | src/hooks/useSocket.ts:96-100 | an empty partial only refreshes `lastUpdated`; a partial with every field replaces everything except the timestamp |
| `UseSocket.ThemeIsThemeOnlyMerge` | src/hooks/useSocket.ts:103-111 | `changeTheme` equals merging a partial that carries only the theme: it sets `activeTheme` and `lastUpdated` and leaves `parameters` and `activeUsers` unchanged |
| `UseSocket.OptimisticWithoutSocket` | src/hooks/useSocket.ts:93-111 | the local merge or theme overwrite happens whether or not a socket exists; with no socket the service is unchanged; with one, exactly the matching message is sent; the flag and the user count are untouched |
| `UseSocket.EffectsLeaveHookState` | src/hooks/useSocket.ts:113-115 | any number of `triggerEffect` calls leave the hook state unchanged; with a socket, the service gains exactly one `trigger-effect` message per id, in call order, and nothing else of it changes; without one, the service is unchanged |
| `UseSocket.SnapshotReplaces` | src/hooks/useSocket.ts:50-55 | `initial-state` and `visual-update` replace the visual state wholesale when data is present; undefined data leaves the hook state unchanged |
| `UseSocket.SnapshotOverridesOptimistic` | src/hooks/useSocket.ts:53-55 | a `visual-update` snapshot after an optimistic merge leaves exactly the snapshot |
| `UseSocket.UserCountOnly` | src/hooks/useSocket.ts:56-58 | `user-count-update` sets only `userCount`; `visualState.activeUsers` and the flag are untouched; undefined data changes nothing |
| `UseSocket.ConnectionFlag` | src/hooks/useSocket.ts:48-49 | `connect` sets the flag to true and `disconnect` sets it to false, touching nothing else |
| `UseSocket.SeedFollowsService` | src/hooks/useSocket.ts:76-80 | after `connect()`, the flag is seeded from `isConnected()`: false if the service had no socket (the new one has not connected yet), otherwise the existing socket's own flag; a socket then exists |
| `MerlinViewer.ModelPathFor` | src/components/MerlinViewer.tsx:83-98 | the theme→model-path `switch`; specified by `ModelPathTable` and `ThemePathsDistinct` |
| `MerlinViewer.ChangeThemes` | src/components/MerlinViewer.tsx:79-99 | `handleThemeChange` called once per theme, in order; specified by `LastThemeWins` |
| `MerlinViewer.HandleThemeChange` | src/components/MerlinViewer.tsx:79-99 | the active theme is set to the argument verbatim, recognised or not, and the model path is the one mapped from it |
| `MerlinViewer.ModelPathTable` | src/components/MerlinViewer.tsx:83-98 | "dj", "wizard", "cosmic" and "brown" map to their own files; a string maps to "/models/merlin.glb" exactly when it is none of those four, "default" and unknown ids included |
| `MerlinViewer.ThemePathsDistinct` | src/components/MerlinViewer.tsx:9-15 | the five theme ids of `Themes` (the `THEMES` list) map to five pairwise-distinct model paths |
| `MerlinViewer.InitialConsistent` | src/components/MerlinViewer.tsx:31-32 | the initial pair ("default", "/models/merlin.glb") is consistent, and "default" is the first theme offered |
| `MerlinViewer.LastThemeWins` | src/components/MerlinViewer.tsx:79-99 | after any run of theme changes, the active theme is the last value passed and the model path is the one mapped from it; consistency is preserved |

## Left out

- The server side. `src/app/api/socketio/route.ts` only logs connections and answers ping with pong. It has no state store, no user counting, no merge and no rebroadcast, so there is no hub to model.
- The socket.io library. Reconnection attempts and delay, transports, and the timing of the handshake belong to the library. The model keeps only a per-socket `connected` flag, which `Deliver` raises and lowers as the transport reports `connect` and `disconnect`.
- The disconnect event fired by a client-initiated disconnect. When a connected socket is disconnected, socket.io reports `disconnect` to its listeners itself. That is library behaviour, so `Disconnect` runs no callbacks.
- Events from a socket the service has dropped. `Deliver` treats the transport as reporting only on the current socket, so with no socket it runs nothing.
- The effects of the callbacks. The model records which callback is called with what. It does not model the callback's own effects, so a callback that unsubscribes during a fan-out is not modelled either.
- Console logging (`console.log`, `console.error`). Its only observable consequence is modelled: `connect_error` reaches no callbacks.
- The server-side-rendering mock (src/lib/socketService.ts:147-155) and the `typeof window` test. `ServiceSlot` models the browser branch only.
- Prototype-inherited property names. The registry is a plain JavaScript object, so a name such as "toString" already looks present before any `on` call. The model's registry is a map with no such keys.
- Payloads of the wrong shape. The hook's handlers accept any truthy value. The model types them as `Option<VisualState>` and `Option<int>`, and the service's `Payload` covers only the declared payload shapes.
- A runtime `parameters` object missing some of its fields, or a key present with the value `undefined`. The model's partial follows the declared `Partial<VisualState>` type: a field is either carried with a full value or absent.
- Floating point. `speed`, `intensity`, `activeUsers` and the user count are JavaScript numbers; the model uses integers. A timestamp is an opaque integer passed in by the caller instead of `new Date()`.
- React plumbing: the effect that registers and cleans up the listeners, and the scheduling of state setters. Only the reducers the setters apply are modelled.
- Everything in src/components/MerlinViewer.tsx except `THEMES` and `handleThemeChange`: the scene, model loading, animation and audio reactivity.
- The other UI components, the CRUD routes over the ORM, the middleware, and the generated type declarations. None of them contain realtime logic, so they are not part of this model.
