/** The state the `useSocket` hook keeps (src/hooks/useSocket.ts) and the reducers
    it applies to it: the optimistic merge and theme overwrite of the local intents,
    and the replace-or-ignore handlers of the service's events. Each reducer is the
    function the hook passes to (or the value it gives) a React state setter; the
    hook's effect scheduling is not modelled. */
module UseSocket {
  import opened Wrappers
  import opened VisualData
  import CS = ClientSocket

  /** The hook's three pieces of state. */
  datatype HookState = HookState(isConnected: bool, visualState: VisualState, userCount: int)

  /** The visual state a hook starts with, stamped with the caller's `now`. */
  function InitialVisualState(now: Timestamp): (v: VisualState)
    ensures v.activeTheme == "default" && v.activeUsers == 0 && v.lastUpdated == now
    ensures v.parameters == VisualParameters(50, 50, "#ff5500", [])
  {
    VisualState("default", VisualParameters(50, 50, "#ff5500", []), 0, now)
  }

  function InitialHookState(now: Timestamp): (h: HookState)
    ensures !h.isConnected && h.userCount == 0 && h.visualState == InitialVisualState(now)
  {
    HookState(false, InitialVisualState(now), 0)
  }

  // ---------------------------------------------------------------------------
  // Local intents

  /** `{ ...prev, ...visualData, lastUpdated: new Date() }`: a shallow merge. */
  function MergeUpdate(prev: VisualState, partial: PartialVisualState, now: Timestamp): VisualState {
    VisualState(
      partial.activeTheme.GetOr(prev.activeTheme),
      partial.parameters.GetOr(prev.parameters),
      partial.activeUsers.GetOr(prev.activeUsers),
      now)
  }

  /** `{ ...prev, activeTheme: theme, lastUpdated: new Date() }`. */
  function ApplyTheme(prev: VisualState, theme: string, now: Timestamp): VisualState {
    prev.(activeTheme := theme, lastUpdated := now)
  }

  /** The partial `q` laid over `p`: `q`'s fields where it has them, `p`'s elsewhere. */
  function Overlay(p: PartialVisualState, q: PartialVisualState): PartialVisualState {
    PartialVisualState(
      if q.activeTheme.Some? then q.activeTheme else p.activeTheme,
      if q.parameters.Some? then q.parameters else p.parameters,
      if q.activeUsers.Some? then q.activeUsers else p.activeUsers,
      if q.lastUpdated.Some? then q.lastUpdated else p.lastUpdated)
  }

  /** The hook's `updateVisuals`: hand the partial to the service, then merge it
      into the local copy whether or not the service sent it. */
  function HookUpdateVisuals(h: HookState, service: CS.ServiceState, partial: PartialVisualState, now: Timestamp)
    : (HookState, CS.ServiceState)
  {
    (h.(visualState := MergeUpdate(h.visualState, partial, now)),
     CS.EmitStep(service, CS.UpdateVisualsMsg(partial)))
  }

  /** The hook's `changeTheme`: hand the theme to the service, then overwrite it locally. */
  function HookChangeTheme(h: HookState, service: CS.ServiceState, theme: string, now: Timestamp)
    : (HookState, CS.ServiceState)
  {
    (h.(visualState := ApplyTheme(h.visualState, theme, now)),
     CS.EmitStep(service, CS.ChangeThemeMsg(theme)))
  }

  /** The hook's `triggerEffect`: only the service is involved. */
  function HookTriggerEffect(h: HookState, service: CS.ServiceState, effectId: string)
    : (HookState, CS.ServiceState)
  {
    (h, CS.EmitStep(service, CS.TriggerEffectMsg(effectId)))
  }

  /** `triggerEffect` called once for each id of `effects`, in order. */
  function TriggerAll(h: HookState, service: CS.ServiceState, effects: seq<string>): (HookState, CS.ServiceState)
    decreases |effects|
  {
    if effects == [] then (h, service)
    else
      var next := HookTriggerEffect(h, service, effects[0]);
      TriggerAll(next.0, next.1, effects[1..])
  }

  /** The `trigger-effect` messages for `effects`, in order. */
  function EffectMessages(effects: seq<string>): seq<CS.Message> {
    seq(|effects|, i requires 0 <= i < |effects| => CS.TriggerEffectMsg(effects[i]))
  }

  // ---------------------------------------------------------------------------
  // Event handlers

  /** The events the hook listens to, with the data its handlers receive
      (`None` is an `undefined` argument). */
  datatype HookEvent =
    | ConnectEvent
    | DisconnectEvent
    | InitialStateEvent(data: Option<VisualState>)
    | VisualUpdateEvent(data: Option<VisualState>)
    | UserCountUpdateEvent(count: Option<int>)

  /** `onConnect`, `onDisconnect`, `onInitialState`, `onVisualUpdate`, `onUserCountUpdate`. */
  function OnEvent(h: HookState, ev: HookEvent): HookState {
    match ev
    case ConnectEvent => h.(isConnected := true)
    case DisconnectEvent => h.(isConnected := false)
    case InitialStateEvent(data) => if data.Some? then h.(visualState := data.value) else h
    case VisualUpdateEvent(data) => if data.Some? then h.(visualState := data.value) else h
    case UserCountUpdateEvent(count) => if count.Some? then h.(userCount := count.value) else h
  }

  /** The effect's `socketService.connect()` followed by
      `setIsConnected(socketService.isConnected())`. */
  function SeedConnection(h: HookState, service: CS.ServiceState): (HookState, CS.ServiceState) {
    var connected := CS.ConnectStep(service);
    (h.(isConnected := CS.SocketConnected(connected)), connected)
  }

  // ---------------------------------------------------------------------------
  // Properties

  /** Fields the partial carries overwrite, absent fields keep their value, a
      carried `parameters` replaces the whole record, and `lastUpdated` is always
      `now`, even if the partial carried a timestamp of its own. */
  lemma MergeFieldwise(prev: VisualState, p: PartialVisualState, now: Timestamp)
    ensures p.activeTheme.Some? ==> MergeUpdate(prev, p, now).activeTheme == p.activeTheme.value
    ensures p.activeTheme.None? ==> MergeUpdate(prev, p, now).activeTheme == prev.activeTheme
    ensures p.parameters.Some? ==> MergeUpdate(prev, p, now).parameters == p.parameters.value
    ensures p.parameters.None? ==> MergeUpdate(prev, p, now).parameters == prev.parameters
    ensures p.activeUsers.Some? ==> MergeUpdate(prev, p, now).activeUsers == p.activeUsers.value
    ensures p.activeUsers.None? ==> MergeUpdate(prev, p, now).activeUsers == prev.activeUsers
    ensures MergeUpdate(prev, p, now).lastUpdated == now
  {
  }

  /** Merging the same partial twice at the same instant is merging it once. */
  lemma MergeIdempotent(prev: VisualState, p: PartialVisualState, now: Timestamp)
    ensures MergeUpdate(MergeUpdate(prev, p, now), p, now) == MergeUpdate(prev, p, now)
  {
  }

  /** Two merges in a row are one merge of the later partial laid over the earlier
      one, stamped with the later instant: the last writer wins field by field. */
  lemma MergeCompose(prev: VisualState, p: PartialVisualState, q: PartialVisualState, t1: Timestamp, t2: Timestamp)
    ensures MergeUpdate(MergeUpdate(prev, p, t1), q, t2) == MergeUpdate(prev, Overlay(p, q), t2)
  {
  }

  /** A partial carrying nothing only refreshes the timestamp; a partial carrying
      every field replaces the state outright, apart from the timestamp. */
  lemma MergeExtremes(prev: VisualState, p: PartialVisualState, now: Timestamp)
    ensures MergeUpdate(prev, EmptyPartial, now) == prev.(lastUpdated := now)
    ensures p.activeTheme.Some? && p.parameters.Some? && p.activeUsers.Some? ==>
      MergeUpdate(prev, p, now) == VisualState(p.activeTheme.value, p.parameters.value, p.activeUsers.value, now)
  {
  }

  /** Changing the theme is the merge of a partial that carries only the theme: it
      replaces `activeTheme` and `lastUpdated` and nothing else. */
  lemma ThemeIsThemeOnlyMerge(prev: VisualState, theme: string, now: Timestamp)
    ensures ApplyTheme(prev, theme, now) == MergeUpdate(prev, EmptyPartial.(activeTheme := Some(theme)), now)
    ensures ApplyTheme(prev, theme, now).activeTheme == theme
    ensures ApplyTheme(prev, theme, now).parameters == prev.parameters
    ensures ApplyTheme(prev, theme, now).activeUsers == prev.activeUsers
    ensures ApplyTheme(prev, theme, now).lastUpdated == now
  {
  }

  /** The optimistic updates happen whether or not the service sends the intent:
      without a socket the service is untouched while the local state still changes;
      with one, exactly the matching message is emitted. The connection flag and the
      user count are never touched. */
  lemma OptimisticWithoutSocket(h: HookState, service: CS.ServiceState, p: PartialVisualState,
                                theme: string, now: Timestamp)
    ensures HookUpdateVisuals(h, service, p, now).0.visualState == MergeUpdate(h.visualState, p, now)
    ensures HookChangeTheme(h, service, theme, now).0.visualState == ApplyTheme(h.visualState, theme, now)
    ensures service.socket.None? ==>
      HookUpdateVisuals(h, service, p, now).1 == service && HookChangeTheme(h, service, theme, now).1 == service
    ensures service.socket.Some? ==>
      HookUpdateVisuals(h, service, p, now).1.outbox == service.outbox + [CS.UpdateVisualsMsg(p)] &&
      HookChangeTheme(h, service, theme, now).1.outbox == service.outbox + [CS.ChangeThemeMsg(theme)]
    ensures HookUpdateVisuals(h, service, p, now).0.isConnected == h.isConnected
    ensures HookUpdateVisuals(h, service, p, now).0.userCount == h.userCount
    ensures HookChangeTheme(h, service, theme, now).0.isConnected == h.isConnected
    ensures HookChangeTheme(h, service, theme, now).0.userCount == h.userCount
  {
  }

  /** Triggering effects never changes the hook's state, however many are sent.
      With a socket, one `trigger-effect` message per id is appended to the outbox,
      in call order, and nothing else of the service changes; without one, the
      service is untouched. */
  lemma {:induction false} EffectsLeaveHookState(h: HookState, service: CS.ServiceState, effects: seq<string>)
    ensures TriggerAll(h, service, effects).0 == h
    ensures service.socket.Some? ==>
      TriggerAll(h, service, effects).1 == service.(outbox := service.outbox + EffectMessages(effects))
    ensures service.socket.None? ==> TriggerAll(h, service, effects).1 == service
    decreases |effects|
  {
    if effects != [] {
      var next := CS.EmitStep(service, CS.TriggerEffectMsg(effects[0]));
      EffectsLeaveHookState(h, next, effects[1..]);
      if service.socket.Some? {
        assert EffectMessages(effects) == [CS.TriggerEffectMsg(effects[0])] + EffectMessages(effects[1..]);
        assert next.outbox + EffectMessages(effects[1..]) == service.outbox + EffectMessages(effects);
      }
    }
  }

  /** A present snapshot (`initial-state` or `visual-update`) replaces the visual
      state wholesale; an absent one leaves the hook state as it is. Neither touches
      the connection flag or the user count. */
  lemma SnapshotReplaces(h: HookState, data: Option<VisualState>)
    ensures data.Some? ==> OnEvent(h, InitialStateEvent(data)) == h.(visualState := data.value)
    ensures data.Some? ==> OnEvent(h, VisualUpdateEvent(data)) == h.(visualState := data.value)
    ensures data.None? ==> OnEvent(h, InitialStateEvent(data)) == h && OnEvent(h, VisualUpdateEvent(data)) == h
  {
  }

  /** A snapshot discards every earlier local change: after it, the visual state
      no longer depends on what was there before. */
  lemma SnapshotOverridesOptimistic(h: HookState, service: CS.ServiceState, p: PartialVisualState,
                                    now: Timestamp, snapshot: VisualState)
    ensures OnEvent(HookUpdateVisuals(h, service, p, now).0, VisualUpdateEvent(Some(snapshot))).visualState == snapshot
  {
  }

  /** `user-count-update` sets the user count and nothing else; in particular the
      `activeUsers` field of the visual state is not touched. */
  lemma UserCountOnly(h: HookState, data: Option<int>)
    ensures data.Some? ==> OnEvent(h, UserCountUpdateEvent(data)).userCount == data.value
    ensures data.None? ==> OnEvent(h, UserCountUpdateEvent(data)) == h
    ensures OnEvent(h, UserCountUpdateEvent(data)).visualState == h.visualState
    ensures OnEvent(h, UserCountUpdateEvent(data)).isConnected == h.isConnected
  {
  }

  /** `connect` and `disconnect` set the connection flag and nothing else. */
  lemma ConnectionFlag(h: HookState)
    ensures OnEvent(h, ConnectEvent) == h.(isConnected := true)
    ensures OnEvent(h, DisconnectEvent) == h.(isConnected := false)
  {
  }

  /** The flag is seeded from the service right after `connect()`: for a service
      that had no socket it is false, since the new socket has not connected yet;
      for one that already had a socket it is that socket's own flag. */
  lemma SeedFollowsService(h: HookState, service: CS.ServiceState)
    ensures service.socket.None? ==> !SeedConnection(h, service).0.isConnected
    ensures service.socket.Some? ==> SeedConnection(h, service).0.isConnected == service.socket.value.connected
    ensures SeedConnection(h, service).1.socket.Some?
    ensures SeedConnection(h, service).0.visualState == h.visualState
    ensures SeedConnection(h, service).0.userCount == h.userCount
  {
  }
}
