/** The client socket service (src/lib/socketService.ts): a guarded connection slot,
    a registry of listener callbacks keyed by event name, and three intent senders.

    The socket.io transport is abstract: a socket is a value with an identity and a
    `connected` flag that the transport raises and lowers, and every `emit` appends a
    message to an outbox. Callbacks are opaque identities; invoking one is recorded as
    an `Invocation` of that identity with the payload it receives.

    Every operation is first defined on a `ServiceState` value; the `SocketService`
    class holds the same data in mutable fields and each of its methods is specified
    by the matching step function. */
module ClientSocket {
  import opened Wrappers
  import opened VisualData

  /** Identity of a callback function; the source compares callbacks by reference. */
  type CallbackId = nat

  /** Event name -> callbacks in registration order. */
  type Registry = map<string, seq<CallbackId>>

  /** An abstract socket.io client socket: `id` tells sockets created by different
      `connect` calls apart, `connected` is the transport's own flag. */
  datatype Socket = Socket(id: nat, connected: bool)

  /** A message handed to `socket.emit`. */
  datatype Message =
    | UpdateVisualsMsg(partial: PartialVisualState)
    | ChangeThemeMsg(theme: string)
    | TriggerEffectMsg(effectId: string)

  /** The event name a message is emitted under. */
  function MessageName(m: Message): string {
    match m
    case UpdateVisualsMsg(_) => "update-visuals"
    case ChangeThemeMsg(_) => "change-theme"
    case TriggerEffectMsg(_) => "trigger-effect"
  }

  /** What a callback receives; `NoData` is JavaScript's `undefined`. */
  datatype Payload =
    | NoData
    | StatePayload(state: VisualState)
    | CountPayload(count: int)
    | ThemePayload(theme: string)
    | EffectPayload(effectId: string)

  /** One call of a registered callback with its argument. */
  datatype Invocation = Invocation(callback: CallbackId, data: Payload)

  /** What the transport reports on the current socket. `ServerEvent` is a message
      pushed by the server under `name`. */
  datatype IncomingEvent =
    | Connected
    | ConnectError(error: string)
    | Disconnected(reason: string)
    | ServerEvent(name: string, data: Payload)

  /** The unsubscribe closure returned by `on`: it remembers its event and callback. */
  datatype Subscription = Subscription(event: string, callback: CallbackId)

  datatype ServiceState = ServiceState(
    socket: Option<Socket>,
    callbacks: Registry,
    outbox: seq<Message>,
    socketsCreated: nat)

  /** The seven event keys a new service registers, each with no callbacks. */
  const InitialEvents: seq<string> := [
    "connect", "disconnect", "initial-state", "visual-update",
    "user-count-update", "theme-changed", "effect-triggered"]

  function InitialRegistry(): (r: Registry)
    ensures r.Keys == set e | e in InitialEvents
    ensures forall e :: e in r ==> r[e] == []
  {
    map[
      "connect" := [], "disconnect" := [], "initial-state" := [], "visual-update" := [],
      "user-count-update" := [], "theme-changed" := [], "effect-triggered" := []]
  }

  /** A freshly constructed service: no socket, the initial registry, nothing sent. */
  function NewService(): ServiceState {
    ServiceState(None, InitialRegistry(), [], 0)
  }

  /** The service's bookkeeping invariant: a present socket is one it created. */
  predicate ValidState(s: ServiceState) {
    s.socket.Some? ==> s.socket.value.id < s.socketsCreated
  }

  /** The callbacks currently registered for `e` (none for an unknown event). */
  function Listeners(reg: Registry, e: string): seq<CallbackId> {
    if e in reg then reg[e] else []
  }

  // ---------------------------------------------------------------------------
  // Connection slot

  /** `connect`: returns at once when a socket exists, otherwise creates a new,
      not yet connected socket (the transport connects it later). */
  function ConnectStep(s: ServiceState): ServiceState {
    if s.socket.Some? then s
    else s.(socket := Some(Socket(s.socketsCreated, false)), socketsCreated := s.socketsCreated + 1)
  }

  /** `disconnect`: returns at once without a socket, otherwise drops the socket. */
  function DisconnectStep(s: ServiceState): ServiceState {
    if s.socket.None? then s else s.(socket := None)
  }

  /** `isConnected`: `socket?.connected || false`. */
  predicate SocketConnected(s: ServiceState) {
    s.socket.Some? && s.socket.value.connected
  }

  // ---------------------------------------------------------------------------
  // Listener registry

  /** `on(event, cb)`: appends `cb` to `event`'s list, creating the list if needed. */
  function SubscribeStep(s: ServiceState, event: string, cb: CallbackId): ServiceState {
    s.(callbacks := s.callbacks[event := Listeners(s.callbacks, event) + [cb]])
  }

  /** `list.filter(c => c !== cb)`. */
  function Without(list: seq<CallbackId>, cb: CallbackId): (r: seq<CallbackId>)
    ensures |r| <= |list|
    ensures cb !in r
    ensures forall x :: x in r ==> x in list
  {
    if list == [] then []
    else (if list[0] == cb then [] else [list[0]]) + Without(list[1..], cb)
  }

  /** The unsubscribe closure: reassigns `event`'s list to the same list without `cb`.
      The closure is only ever obtained from `on`, which makes sure the key exists. */
  function UnsubscribeStep(s: ServiceState, sub: Subscription): ServiceState
    requires sub.event in s.callbacks
  {
    s.(callbacks := s.callbacks[sub.event := Without(s.callbacks[sub.event], sub.callback)])
  }

  /** Calling each callback of `list`, in order, with `data`. */
  function Calls(list: seq<CallbackId>, data: Payload): (r: seq<Invocation>)
    ensures |r| == |list|
  {
    if list == [] then [] else [Invocation(list[0], data)] + Calls(list[1..], data)
  }

  /** `_triggerCallbacks(event, data)`: what is called when `event` is triggered. */
  function Fanout(reg: Registry, event: string, data: Payload): seq<Invocation> {
    if event in reg then Calls(reg[event], data) else []
  }

  // ---------------------------------------------------------------------------
  // Intent senders

  /** The guard shared by `updateVisuals`, `changeTheme` and `triggerEffect`: the
      message is emitted when a socket exists (connected or not) and dropped otherwise. */
  function EmitStep(s: ServiceState, m: Message): ServiceState {
    if s.socket.Some? then s.(outbox := s.outbox + [m]) else s
  }

  // ---------------------------------------------------------------------------
  // Incoming transport events

  /** The listeners `connect` installs on a new socket: the registry event each
      transport event is forwarded to, with the data passed along. `connect_error`
      is only logged, and a server event nobody listens for is not dispatched. */
  function Forwarded(ev: IncomingEvent): Option<(string, Payload)> {
    match ev
    case Connected => Some(("connect", NoData))
    case ConnectError(_) => None
    case Disconnected(_) => Some(("disconnect", NoData))
    case ServerEvent(name, data) =>
      if name == "initial-state" then Some(("initial-state", data))
      else if name == "visual-update" then Some(("visual-update", data))
      else if name == "user-count-update" then Some(("user-count-update", data))
      else if name == "theme-changed" then Some(("theme-changed", data))
      else if name == "effect-triggered" then Some(("effect-triggered", data))
      else None
  }

  /** The name socket.io reports an incoming event under. */
  function WireName(ev: IncomingEvent): string {
    match ev
    case Connected => "connect"
    case ConnectError(_) => "connect_error"
    case Disconnected(_) => "disconnect"
    case ServerEvent(name, _) => name
  }

  /** The transport's own flag as socket.io keeps it: up on `connect`, down on
      `disconnect`. Without a socket nothing is reported. */
  function TransportStep(s: ServiceState, ev: IncomingEvent): ServiceState {
    if s.socket.None? then s
    else match ev
      case Connected => s.(socket := Some(s.socket.value.(connected := true)))
      case Disconnected(_) => s.(socket := Some(s.socket.value.(connected := false)))
      case _ => s
  }

  /** The callbacks that run when the current socket reports `ev`. */
  function Dispatched(s: ServiceState, ev: IncomingEvent): seq<Invocation> {
    if s.socket.None? then []
    else match Forwarded(ev)
      case None => []
      case Some(target) => Fanout(s.callbacks, target.0, target.1)
  }

  // ---------------------------------------------------------------------------
  // Properties of the step functions

  /** A new service registers exactly the seven event keys, all with empty lists. */
  lemma NewServiceShape()
    ensures |NewService().callbacks| == 7
    ensures forall e :: e in NewService().callbacks ==> NewService().callbacks[e] == []
    ensures NewService().socket.None? && NewService().outbox == []
    ensures ValidState(NewService())
  {
  }

  /** `connect` called twice is `connect` called once: at most one socket is created. */
  lemma ConnectIdempotent(s: ServiceState)
    ensures ConnectStep(ConnectStep(s)) == ConnectStep(s)
    ensures ConnectStep(s).socket.Some?
    ensures ConnectStep(s).socketsCreated == s.socketsCreated + (if s.socket.None? then 1 else 0)
    ensures ConnectStep(s).callbacks == s.callbacks && ConnectStep(s).outbox == s.outbox
  {
  }

  /** `connect` keeps an existing socket; a new socket starts disconnected. */
  lemma ConnectKeepsSocket(s: ServiceState)
    ensures s.socket.Some? ==> ConnectStep(s) == s
    ensures s.socket.None? ==> !SocketConnected(ConnectStep(s))
  {
  }

  /** `disconnect` without a socket changes nothing; otherwise it empties the slot
      and touches nothing else, and a later `connect` creates a socket different
      from the one dropped. */
  lemma DisconnectThenConnect(s: ServiceState)
    requires ValidState(s)
    ensures s.socket.None? ==> DisconnectStep(s) == s
    ensures DisconnectStep(s).socket.None? && !SocketConnected(DisconnectStep(s))
    ensures DisconnectStep(s).callbacks == s.callbacks && DisconnectStep(s).outbox == s.outbox
    ensures DisconnectStep(DisconnectStep(s)) == DisconnectStep(s)
    ensures s.socket.Some? ==>
      ConnectStep(DisconnectStep(s)).socket.Some? &&
      ConnectStep(DisconnectStep(s)).socket.value.id != s.socket.value.id
  {
  }

  /** Every operation keeps the bookkeeping invariant. */
  lemma StepsPreserveValid(s: ServiceState, event: string, cb: CallbackId, m: Message, ev: IncomingEvent)
    requires ValidState(s)
    ensures ValidState(ConnectStep(s)) && ValidState(DisconnectStep(s))
    ensures ValidState(SubscribeStep(s, event, cb)) && ValidState(EmitStep(s, m))
    ensures ValidState(TransportStep(s, ev))
    ensures event in s.callbacks ==> ValidState(UnsubscribeStep(s, Subscription(event, cb)))
  {
  }

  /** `on(e, cb)` puts `cb` at the end of `e`'s list, makes `e` a key, and leaves
      every other event's list and the connection alone. */
  lemma SubscribeAppends(s: ServiceState, e: string, cb: CallbackId)
    ensures e in SubscribeStep(s, e, cb).callbacks
    ensures SubscribeStep(s, e, cb).callbacks[e] == Listeners(s.callbacks, e) + [cb]
    ensures SubscribeStep(s, e, cb).callbacks.Keys == s.callbacks.Keys + {e}
    ensures forall e' :: e' != e ==> Listeners(SubscribeStep(s, e, cb).callbacks, e') == Listeners(s.callbacks, e')
    ensures SubscribeStep(s, e, cb).socket == s.socket && SubscribeStep(s, e, cb).outbox == s.outbox
  {
  }

  /** Dropping one callback never touches another: each other identity keeps its
      number of occurrences. */
  lemma {:induction false} WithoutCounts(list: seq<CallbackId>, cb: CallbackId)
    ensures multiset(Without(list, cb)) == multiset(list)[cb := 0]
  {
    if list != [] {
      WithoutCounts(list[1..], cb);
      assert list == [list[0]] + list[1..];
    }
  }

  /** Filtering works piecewise, so the survivors keep their original order. */
  lemma {:induction false} WithoutConcat(a: seq<CallbackId>, b: seq<CallbackId>, cb: CallbackId)
    ensures Without(a + b, cb) == Without(a, cb) + Without(b, cb)
  {
    if a == [] {
      assert a + b == b;
    } else {
      assert (a + b)[1..] == a[1..] + b;
      WithoutConcat(a[1..], b, cb);
    }
  }

  /** A list that does not hold `cb` is left as it is. */
  lemma {:induction false} WithoutAbsent(list: seq<CallbackId>, cb: CallbackId)
    requires cb !in list
    ensures Without(list, cb) == list
  {
    if list != [] {
      WithoutAbsent(list[1..], cb);
    }
  }

  /** Removing `cb` a second time changes nothing. */
  lemma WithoutIdempotent(list: seq<CallbackId>, cb: CallbackId)
    ensures Without(Without(list, cb), cb) == Without(list, cb)
  {
    WithoutAbsent(Without(list, cb), cb);
  }

  /** Registering a callback that was not in the list and unsubscribing it gives
      back the list it started from. */
  lemma SubscribeUnsubscribeRestores(s: ServiceState, e: string, cb: CallbackId)
    requires cb !in Listeners(s.callbacks, e)
    ensures UnsubscribeStep(SubscribeStep(s, e, cb), Subscription(e, cb)).callbacks
         == s.callbacks[e := Listeners(s.callbacks, e)]
  {
    var before := Listeners(s.callbacks, e);
    WithoutConcat(before, [cb], cb);
    WithoutAbsent(before, cb);
    assert Without([cb], cb) == [];
    assert before + [] == before;
  }

  /** The unsubscribe closure removes every occurrence of its callback from its own
      event, keeps the other callbacks of that event, leaves every other event and
      the connection alone, and calling it again changes nothing. */
  lemma UnsubscribeEffect(s: ServiceState, sub: Subscription)
    requires sub.event in s.callbacks
    ensures sub.callback !in UnsubscribeStep(s, sub).callbacks[sub.event]
    ensures multiset(UnsubscribeStep(s, sub).callbacks[sub.event])
         == multiset(s.callbacks[sub.event])[sub.callback := 0]
    ensures UnsubscribeStep(s, sub).callbacks.Keys == s.callbacks.Keys
    ensures forall e :: e != sub.event ==> Listeners(UnsubscribeStep(s, sub).callbacks, e) == Listeners(s.callbacks, e)
    ensures UnsubscribeStep(s, sub).socket == s.socket && UnsubscribeStep(s, sub).outbox == s.outbox
    ensures UnsubscribeStep(UnsubscribeStep(s, sub), sub) == UnsubscribeStep(s, sub)
  {
    WithoutCounts(s.callbacks[sub.event], sub.callback);
    WithoutIdempotent(s.callbacks[sub.event], sub.callback);
    assert UnsubscribeStep(UnsubscribeStep(s, sub), sub).callbacks == UnsubscribeStep(s, sub).callbacks;
  }

  /** The `i`-th call made is to the `i`-th registered callback, with the same data. */
  lemma {:induction false} CallsAt(list: seq<CallbackId>, data: Payload, i: nat)
    requires i < |list|
    ensures Calls(list, data)[i] == Invocation(list[i], data)
  {
    if i > 0 {
      CallsAt(list[1..], data, i - 1);
    }
  }

  lemma {:induction false} CallsConcat(a: seq<CallbackId>, b: seq<CallbackId>, data: Payload)
    ensures Calls(a + b, data) == Calls(a, data) + Calls(b, data)
  {
    if a == [] {
      assert a + b == b;
    } else {
      assert (a + b)[1..] == a[1..] + b;
      CallsConcat(a[1..], b, data);
    }
  }

  /** Triggering an event calls each of its callbacks once per registration, in
      registration order, all with the same payload; an unknown event calls nothing. */
  lemma FanoutInOrder(reg: Registry, event: string, data: Payload)
    ensures |Fanout(reg, event, data)| == |Listeners(reg, event)|
    ensures forall i :: 0 <= i < |Listeners(reg, event)| ==>
      Fanout(reg, event, data)[i] == Invocation(Listeners(reg, event)[i], data)
    ensures event !in reg ==> Fanout(reg, event, data) == []
  {
    forall i | 0 <= i < |Listeners(reg, event)|
      ensures Fanout(reg, event, data)[i] == Invocation(Listeners(reg, event)[i], data)
    {
      CallsAt(Listeners(reg, event), data, i);
    }
  }

  /** A callback added by `on` is called last when its event is triggered. */
  lemma SubscribedIsCalledLast(s: ServiceState, e: string, cb: CallbackId, data: Payload)
    ensures Fanout(SubscribeStep(s, e, cb).callbacks, e, data)
         == Fanout(s.callbacks, e, data) + [Invocation(cb, data)]
  {
    CallsConcat(Listeners(s.callbacks, e), [cb], data);
  }

  /** After unsubscribing, triggering the event no longer calls that callback. */
  lemma UnsubscribedIsNotCalled(s: ServiceState, sub: Subscription, data: Payload)
    requires sub.event in s.callbacks
    ensures forall inv :: inv in Fanout(UnsubscribeStep(s, sub).callbacks, sub.event, data) ==>
      inv.callback != sub.callback
  {
    var rest := Without(s.callbacks[sub.event], sub.callback);
    forall inv | inv in Fanout(UnsubscribeStep(s, sub).callbacks, sub.event, data)
      ensures inv.callback != sub.callback
    {
      var i :| 0 <= i < |Calls(rest, data)| && Calls(rest, data)[i] == inv;
      CallsAt(rest, data, i);
    }
  }

  /** Each sender emits exactly one message under its own name when a socket exists
      and emits (and queues) nothing otherwise; nothing but the outbox changes. The
      guard looks at the socket slot, not at `isConnected()`: a socket the transport
      has not connected yet still receives the message. */
  lemma EmitGuard(s: ServiceState, m: Message)
    ensures s.socket.Some? ==> EmitStep(s, m).outbox == s.outbox + [m]
    ensures s.socket.None? ==> EmitStep(s, m) == s
    ensures EmitStep(s, m).socket == s.socket && EmitStep(s, m).callbacks == s.callbacks
  {
  }

  /** The three senders use three distinct event names. */
  lemma MessageNames(p: PartialVisualState, theme: string, effectId: string)
    ensures MessageName(UpdateVisualsMsg(p)) == "update-visuals"
    ensures MessageName(ChangeThemeMsg(theme)) == "change-theme"
    ensures MessageName(TriggerEffectMsg(effectId)) == "trigger-effect"
    ensures forall m1: Message, m2: Message :: MessageName(m1) == MessageName(m2) ==>
      m1.UpdateVisualsMsg? == m2.UpdateVisualsMsg? &&
      m1.ChangeThemeMsg? == m2.ChangeThemeMsg? &&
      m1.TriggerEffectMsg? == m2.TriggerEffectMsg?
  {
  }

  /** Every forwarded transport event reaches callbacks of its own name;
      `connect_error` and unlistened server events reach none. */
  lemma ForwardedToSameName(ev: IncomingEvent)
    ensures Forwarded(ev).Some? ==> Forwarded(ev).value.0 == WireName(ev)
    ensures Forwarded(ev).None? <==>
      ev.ConnectError? || (ev.ServerEvent? && ev.name !in InitialEvents[2..])
    ensures Forwarded(ev).Some? ==> Forwarded(ev).value.0 in InitialEvents
    ensures ev.ServerEvent? && Forwarded(ev).Some? ==> Forwarded(ev).value.1 == ev.data
  {
  }

  /** Callbacks registered under `connect_error` are never called: replacing that
      list by any other changes nothing that any transport event dispatches. */
  lemma ConnectErrorListenersNeverRun(s: ServiceState, ev: IncomingEvent, other: seq<CallbackId>)
    ensures Dispatched(s, ev) == Dispatched(s.(callbacks := s.callbacks["connect_error" := other]), ev)
  {
  }

  /** A transport event on the current socket runs exactly the callbacks registered
      under its forwarded name; the registry and the outbox stay as they are. */
  lemma DeliverRunsListeners(s: ServiceState, ev: IncomingEvent)
    requires s.socket.Some? && Forwarded(ev).Some?
    ensures Dispatched(s, ev) == Calls(Listeners(s.callbacks, WireName(ev)), Forwarded(ev).value.1)
    ensures TransportStep(s, ev).callbacks == s.callbacks && TransportStep(s, ev).outbox == s.outbox
  {
  }

  /** `isConnected()` follows the transport: true after it reports `connect`,
      false after `disconnect`, false with no socket. */
  lemma ConnectedFlagFollowsTransport(s: ServiceState, reason: string)
    ensures s.socket.Some? ==> SocketConnected(TransportStep(s, Connected))
    ensures !SocketConnected(TransportStep(s, Disconnected(reason)))
    ensures s.socket.None? ==> !SocketConnected(s)
  {
  }

  // ---------------------------------------------------------------------------
  // The service object

  class SocketService {
    var socket: Option<Socket>
    var callbacks: Registry
    var outbox: seq<Message>
    var socketsCreated: nat

    /** The service's data as a value. */
    function State(): ServiceState
      reads this
    {
      ServiceState(socket, callbacks, outbox, socketsCreated)
    }

    ghost predicate Valid()
      reads this
    {
      ValidState(State())
    }

    constructor ()
      ensures State() == NewService() && Valid()
    {
      socket := None;
      callbacks := InitialRegistry();
      outbox := [];
      socketsCreated := 0;
    }

    method Connect()
      requires Valid()
      modifies this`socket, this`socketsCreated
      ensures Valid()
      ensures State() == ConnectStep(old(State()))
    {
      if socket.Some? {
        return;
      }
      socket := Some(Socket(socketsCreated, false));
      socketsCreated := socketsCreated + 1;
    }

    method Disconnect()
      requires Valid()
      modifies this`socket
      ensures Valid()
      ensures State() == DisconnectStep(old(State()))
    {
      if socket.None? {
        return;
      }
      socket := None;
    }

    /** `on(event, callback)`; the returned value stands for the unsubscribe closure. */
    method On(event: string, callback: CallbackId) returns (unsubscribe: Subscription)
      requires Valid()
      modifies this`callbacks
      ensures Valid()
      ensures State() == SubscribeStep(old(State()), event, callback)
      ensures unsubscribe == Subscription(event, callback) && event in callbacks
    {
      if event !in callbacks {
        callbacks := callbacks[event := []];
      }
      callbacks := callbacks[event := callbacks[event] + [callback]];
      unsubscribe := Subscription(event, callback);
    }

    /** Calling the closure returned by `on`. */
    method Unsubscribe(sub: Subscription)
      requires Valid() && sub.event in callbacks
      modifies this`callbacks
      ensures Valid()
      ensures State() == UnsubscribeStep(old(State()), sub)
    {
      callbacks := callbacks[sub.event := Without(callbacks[sub.event], sub.callback)];
    }

    /** `_triggerCallbacks(event, data)`: the `forEach` over the event's list. */
    method TriggerCallbacks(event: string, data: Payload) returns (calls: seq<Invocation>)
      ensures calls == Fanout(callbacks, event, data)
      ensures |calls| == |Listeners(callbacks, event)|
      ensures forall i :: 0 <= i < |calls| ==> calls[i] == Invocation(Listeners(callbacks, event)[i], data)
    {
      calls := [];
      if event in callbacks {
        var list := callbacks[event];
        var i := 0;
        while i < |list|
          invariant 0 <= i <= |list|
          invariant calls == Calls(list[..i], data)
        {
          assert list[..i + 1] == list[..i] + [list[i]];
          CallsConcat(list[..i], [list[i]], data);
          calls := calls + [Invocation(list[i], data)];
          i := i + 1;
        }
        assert list[..i] == list;
      }
      FanoutInOrder(callbacks, event, data);
    }

    method IsConnected() returns (connected: bool)
      ensures connected == SocketConnected(State())
      ensures connected ==> socket.Some?
    {
      connected := socket.Some? && socket.value.connected;
    }

    method UpdateVisuals(visualData: PartialVisualState)
      requires Valid()
      modifies this`outbox
      ensures Valid()
      ensures State() == EmitStep(old(State()), UpdateVisualsMsg(visualData))
    {
      if socket.None? {
        return;
      }
      outbox := outbox + [UpdateVisualsMsg(visualData)];
    }

    method ChangeTheme(theme: string)
      requires Valid()
      modifies this`outbox
      ensures Valid()
      ensures State() == EmitStep(old(State()), ChangeThemeMsg(theme))
    {
      if socket.None? {
        return;
      }
      outbox := outbox + [ChangeThemeMsg(theme)];
    }

    method TriggerEffect(effectId: string)
      requires Valid()
      modifies this`outbox
      ensures Valid()
      ensures State() == EmitStep(old(State()), TriggerEffectMsg(effectId))
    {
      if socket.None? {
        return;
      }
      outbox := outbox + [TriggerEffectMsg(effectId)];
    }

    /** The transport reports `ev` on the current socket: socket.io updates its flag,
        then the listener installed by `connect` forwards the event (or only logs it). */
    method Deliver(ev: IncomingEvent) returns (calls: seq<Invocation>)
      requires Valid()
      modifies this`socket
      ensures Valid()
      ensures State() == TransportStep(old(State()), ev)
      ensures calls == Dispatched(old(State()), ev)
    {
      calls := [];
      if socket.None? {
        return;
      }
      if ev.Connected? {
        socket := Some(socket.value.(connected := true));
      } else if ev.Disconnected? {
        socket := Some(socket.value.(connected := false));
      }
      var target := Forwarded(ev);
      if target.Some? {
        calls := TriggerCallbacks(target.value.0, target.value.1);
      }
    }
  }

  /** The module-level `socketServiceInstance` slot behind `getSocketService`. */
  class ServiceSlot {
    var instance: SocketService?

    /** A service held in the slot is always a usable one. */
    ghost predicate Valid()
      reads this, instance
    {
      instance != null ==> instance.Valid()
    }

    constructor ()
      ensures Valid() && instance == null
    {
      instance := null;
    }

    /** `getSocketService` in the browser: creates the service on first use and
        hands out the same, still usable, object afterwards. */
    method GetSocketService() returns (service: SocketService)
      requires Valid()
      modifies this
      ensures Valid() && service.Valid()
      ensures old(instance) != null ==> service == old(instance) && service.State() == old(instance.State())
      ensures old(instance) == null ==> fresh(service) && service.State() == NewService()
      ensures instance == service
    {
      if instance == null {
        instance := new SocketService();
      }
      service := instance;
    }
  }

  /** Two calls of `getSocketService` return one and the same service. */
  method GetSocketServiceTwice(slot: ServiceSlot) returns (first: SocketService, second: SocketService)
    requires slot.Valid()
    modifies slot
    ensures first == second && slot.instance == first && slot.Valid()
  {
    first := slot.GetSocketService();
    second := slot.GetSocketService();
  }

  /** What the hook does on every mount: fetch the shared service and connect it.
      Afterwards the service has a socket, and a socket that already existed is kept. */
  method GetSocketServiceAndConnect(slot: ServiceSlot) returns (service: SocketService)
    requires slot.Valid()
    modifies slot, slot.instance
    ensures slot.Valid() && slot.instance == service
    ensures service.State() == ConnectStep(if old(slot.instance) == null then NewService() else old(slot.instance.State()))
    ensures service.socket.Some?
  {
    service := slot.GetSocketService();
    service.Connect();
  }
}
