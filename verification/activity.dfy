/** `StreetviewPanoActivity`: the activity's event handlers, each one a pure
    step from the activity state and one event to the next state and the
    messages emitted while handling it. */
module StreetviewPanoActivity {
  import opened Wrappers
  import opened StreetviewTypes
  import opened StreetviewModel
  import Ros = StreetviewRos
  import Websocket = StreetviewWebsocket

  /** Scales a raw axis reading into degrees of yaw and into movement. */
  const InputSensitivity: real := 0.0032

  /** Consecutive strong pushes the counter must pass before a move fires. */
  const InputMovementCount: int := 10

  /** A scaled push counts only when its magnitude is above this. */
  const InputMovementThreshold: real := 1.0

  /** Length, in milliseconds, of the quiet period that follows a move. */
  const InputMovementCooldown: int := 500

  /** The activity's fields: the view model, the links-dirty flag, the role,
      the framework's activation flag, and the movement aggregation state. */
  datatype ActivityState = ActivityState(
    model: ViewState,
    linksDirty: bool,
    master: bool,
    activated: bool,
    movementCounter: int,
    lastMoveTime: int)

  /** The result of handling one event. */
  datatype Step = Step(state: ActivityState, out: seq<Emit>)

  /** The three axes of an `InputAbsState` that the activity reads:
      ABS_RZ (turn), ABS_Y and ABS_RX (forward/backward). */
  datatype AbsState = AbsState(rz: int, y: int, rx: int)

  /** Every event the activity subscribes to. `OutboundRos` and
      `OutboundWebsocket` carry a message built elsewhere, only relayed. */
  datatype Event =
    | RosAbsState(axes: AbsState)
    | RosInputKey(value: int)
    | RosRefresh
    | RosPov(pov: Pov)
    | RosPano(pano: Pano)
    | WebsocketLinks(links: Links)
    | WebsocketRefresh
    | OutboundRos(channel: Channel, json: string)
    | OutboundWebsocket(json: string)

  /** The state `onActivitySetup` leaves behind: a fresh model, the
      configured role, and the move clock started at `now`. */
  function Setup(master: bool, now: int): (s: ActivityState)
    ensures s.model == Fresh() && !s.linksDirty && !s.activated
    ensures s.master == master
    ensures s.movementCounter == 0 && s.lastMoveTime == now
  {
    ActivityState(Fresh(), false, master, false, 0, now)
  }

  /** A configuration update re-reads the role and nothing else. */
  function Reconfigure(s: ActivityState, master: bool): (r: ActivityState)
    ensures r.master == master
    ensures r.model == s.model && r.linksDirty == s.linksDirty && r.activated == s.activated
    ensures r.movementCounter == s.movementCounter && r.lastMoveTime == s.lastMoveTime
  {
    s.(master := master)
  }

  /** The framework's activation (`onActivityActivate`): the handlers gated
      on activation start acting; nothing else changes. */
  function Activate(s: ActivityState): (r: ActivityState)
    ensures r.activated && r == s.(activated := true)
    ensures s.activated ==> r == s
  {
    s.(activated := true)
  }

  /** The framework's deactivation (`onActivityDeactivate`): the gated
      handlers stop acting; nothing else changes. */
  function Deactivate(s: ActivityState): (r: ActivityState)
    ensures !r.activated && r == s.(activated := false)
    ensures !s.activated ==> r == s
  {
    s.(activated := false)
  }

  /** `isMaster()`: whether this instance holds the authoritative view. */
  function IsMaster(s: ActivityState): (r: bool)
    ensures r <==> s.master
  {
    s.master
  }

  /** The state invariant every handler keeps: the links are never dirty
      and the movement counter stays within the movement count, so it never
      comes near the bounds of a Java `int`. */
  predicate Inv(s: ActivityState) {
    !s.linksDirty && -InputMovementCount <= s.movementCounter <= InputMovementCount
  }

  /** Only the model's pano may differ between `s` and `r`. */
  predicate OnlyPanoChanged(s: ActivityState, r: ActivityState) {
    r == s.(model := s.model.(pano := r.model.pano))
  }

  /** Every pov or pano on the bus in `out` is the one held by `m`. */
  predicate BusCarries(out: seq<Emit>, m: ViewState) {
    forall i :: 0 <= i < |out| && out[i].ToBus? ==>
      (out[i].data.PovData? ==> out[i].data.pov == m.pov)
      && (out[i].data.PanoData? ==> out[i].data.pano == m.pano)
  }

  predicate NoPov(out: seq<Emit>) {
    forall i :: 0 <= i < |out| ==> !out[i].data.PovData?
  }

  predicate NoPano(out: seq<Emit>) {
    forall i :: 0 <= i < |out| ==> !out[i].data.PanoData?
  }

  // ---------------------------------------------------------------------
  // Moving to a neighbouring panorama
  // ---------------------------------------------------------------------

  /** Moves to the link nearest to `heading`, if there is one, and
      publishes the new pano. */
  function MoveToward(lib: Library, s: ActivityState, heading: real): (r: Step)
    ensures lib.nearestLink(s.model.links, heading).None? ==> r == Step(s, [])
    ensures lib.nearestLink(s.model.links, heading).Some? ==>
      var link := lib.nearestLink(s.model.links, heading).value;
      && r.state.model.pano == Pano(link.pano)
      && (link.pano.Some? ==> r.out == [ToBus(PanoChannel, PanoData(Pano(link.pano)))])
      && (link.pano.None? ==> r.out == [])
    ensures OnlyPanoChanged(s, r.state)
    ensures NoPov(r.out) && NoNullPano(r.out) && BusCarries(r.out, r.state.model)
  {
    match lib.nearestLink(s.model.links, heading)
    case None => Step(s, [])
    case Some(nearest) =>
      var s' := s.(model := SetPano(s.model, Pano(nearest.pano)));
      Step(s', Ros.SendPano(s'.model.pano))
  }

  /** Moving forward targets the current heading. */
  function MoveForward(lib: Library, s: ActivityState): (r: Step)
    ensures r == MoveToward(lib, s, s.model.pov.heading)
  {
    MoveToward(lib, s, s.model.pov.heading)
  }

  /** Moving backward targets the opposite of the current heading. */
  function MoveBackward(lib: Library, s: ActivityState): (r: Step)
    ensures r == MoveToward(lib, s, s.model.pov.heading - 180.0)
  {
    MoveToward(lib, s, s.model.pov.heading - 180.0)
  }

  // ---------------------------------------------------------------------
  // Axis aggregation
  // ---------------------------------------------------------------------

  /** The yaw a turn-axis sample asks for. */
  function YawOf(axes: AbsState): (yaw: real)
    ensures yaw != 0.0 <==> axes.rz != 0
  {
    axes.rz as real * InputSensitivity
  }

  /** The forward (positive) or backward (negative) push of a sample.
      Since 1.0 / 0.0032 = 312.5 is not an integer, the double evaluation
      of the source and this exact one agree on both thresholds. */
  function MovementOf(axes: AbsState): (movement: real)
    ensures movement > InputMovementThreshold <==> axes.y + axes.rx <= -313
    ensures movement < -InputMovementThreshold <==> axes.y + axes.rx >= 313
  {
    -InputSensitivity * ((axes.y + axes.rx) as real)
  }

  datatype Move = Stay | Forward | Backward

  /** The aggregation state after one sample, and the move it decides. */
  datatype Decision = Decision(counter: int, lastMoveTime: int, move: Move)

  /** The counter update and cooldown/trigger logic of the axis handler. */
  function Decide(counter: int, lastMoveTime: int, linksDirty: bool, movement: real, now: int): (d: Decision)
    // within the cooldown nothing moves, the counter drops to zero and the
    // move clock keeps its time
    ensures now - lastMoveTime < InputMovementCooldown ==> d == Decision(0, lastMoveTime, Stay)
    // a move restarts the counter and the move clock
    ensures d.move != Stay ==> d.counter == 0 && d.lastMoveTime == now
    ensures d.move == Stay ==> d.lastMoveTime == lastMoveTime
    // dirty links never move
    ensures linksDirty ==> d.move == Stay
    // outside the cooldown without a move the counter follows the sample:
    // up on a forward push, down on a backward push, back to zero otherwise
    ensures now - lastMoveTime >= InputMovementCooldown && d.move == Stay ==>
      (movement > InputMovementThreshold ==> d.counter == counter + 1)
      && (movement < -InputMovementThreshold ==> d.counter == counter - 1)
      && (-InputMovementThreshold <= movement <= InputMovementThreshold ==> d.counter == 0)
    // with the counter in range, a forward move fires exactly on the
    // push that takes it past the movement count, and likewise backward
    ensures -InputMovementCount <= counter <= InputMovementCount ==>
      (d.move == Forward <==>
        now - lastMoveTime >= InputMovementCooldown && !linksDirty
        && movement > InputMovementThreshold && counter == InputMovementCount)
    ensures -InputMovementCount <= counter <= InputMovementCount ==>
      (d.move == Backward <==>
        now - lastMoveTime >= InputMovementCooldown && !linksDirty
        && movement < -InputMovementThreshold && counter == -InputMovementCount)
    ensures !linksDirty && -InputMovementCount <= counter <= InputMovementCount ==>
      -InputMovementCount <= d.counter <= InputMovementCount
  {
    var c :=
      if movement > InputMovementThreshold then counter + 1
      else if movement < -InputMovementThreshold then counter - 1
      else 0;
    if now - lastMoveTime < InputMovementCooldown then Decision(0, lastMoveTime, Stay)
    else if c > InputMovementCount && !linksDirty then Decision(0, now, Forward)
    else if c < -InputMovementCount && !linksDirty then Decision(0, now, Backward)
    else Decision(c, lastMoveTime, Stay)
  }

  /** Performs a decided move on `s`. */
  function Perform(lib: Library, s: ActivityState, move: Move): (r: Step)
    ensures move == Stay ==> r == Step(s, [])
    ensures move == Forward ==> r == MoveForward(lib, s)
    ensures move == Backward ==> r == MoveBackward(lib, s)
  {
    match move
    case Stay => Step(s, [])
    case Forward => MoveForward(lib, s)
    case Backward => MoveBackward(lib, s)
  }

  /** The state after the yaw part of an axis sample: the pov translated by
      the yaw when it is nonzero. */
  function Yawed(lib: Library, s: ActivityState, axes: AbsState): (r: ActivityState)
    ensures axes.rz != 0 ==> r == s.(model := s.model.(pov := lib.translate(s.model.pov, YawOf(axes), 0.0)))
    ensures axes.rz == 0 ==> r == s
  {
    if YawOf(axes) != 0.0 then s.(model := SetPov(s.model, lib.translate(s.model.pov, YawOf(axes), 0.0)))
    else s
  }

  /** Handles an axis sample (`onRosAbsStateEvent`). */
  function OnRosAbsState(lib: Library, s: ActivityState, axes: AbsState, now: int): (r: Step)
    // only an activated master acts on raw input
    ensures !(s.master && s.activated) ==> r == Step(s, [])
    // a nonzero yaw translates the pov and publishes it first, whatever the
    // counter and cooldown; a zero yaw leaves the pov untouched; no other pov
    // is emitted
    ensures s.master && s.activated && axes.rz != 0 ==>
      && r.state.model.pov == lib.translate(s.model.pov, YawOf(axes), 0.0)
      && |r.out| >= 1 && r.out[0] == ToBus(PovChannel, PovData(r.state.model.pov))
      && NoPov(r.out[1..])
    ensures axes.rz == 0 ==> r.state.model.pov == s.model.pov && NoPov(r.out)
    // the aggregation state follows `Decide`, and the decided move is made
    // from the yawed state
    ensures s.master && s.activated ==>
      var d := Decide(s.movementCounter, s.lastMoveTime, s.linksDirty, MovementOf(axes), now);
      var y := Yawed(lib, s, axes).(movementCounter := d.counter, lastMoveTime := d.lastMoveTime);
      && r.state == Perform(lib, y, d.move).state
      && r.out == (if axes.rz != 0 then Ros.SendPov(y.model.pov) else []) + Perform(lib, y, d.move).out
    ensures r.state.master == s.master && r.state.activated == s.activated
    ensures r.state.linksDirty == s.linksDirty && r.state.model.links == s.model.links
    ensures Inv(s) ==> Inv(r.state)
    ensures NoNullPano(r.out) && BusCarries(r.out, r.state.model)
  {
    if !IsMaster(s) || !s.activated then Step(s, [])
    else
      var s1 := Yawed(lib, s, axes);
      var out1 := if YawOf(axes) != 0.0 then Ros.SendPov(s1.model.pov) else [];
      var d := Decide(s1.movementCounter, s1.lastMoveTime, s1.linksDirty, MovementOf(axes), now);
      var s2 := s1.(movementCounter := d.counter, lastMoveTime := d.lastMoveTime);
      var moved := Perform(lib, s2, d.move);
      Step(moved.state, out1 + moved.out)
  }

  // ---------------------------------------------------------------------
  // The other handlers
  // ---------------------------------------------------------------------

  /** Handles a key event (`onRosInputKeyEvent`): a press moves forward. */
  function OnRosInputKey(lib: Library, s: ActivityState, value: int): (r: Step)
    ensures !(s.master && s.activated) ==> r == Step(s, [])
    ensures s.master && s.activated && value > 0 && !s.linksDirty ==> r == MoveForward(lib, s)
    ensures value <= 0 || s.linksDirty ==> r == Step(s, [])
    ensures OnlyPanoChanged(s, r.state)
  {
    if !IsMaster(s) || !s.activated then Step(s, [])
    else if value > 0 && !s.linksDirty then MoveForward(lib, s)
    else Step(s, [])
  }

  /** Handles a bus refresh (`onRosRefreshMessage`): only the master answers,
      with its pov and then its pano. */
  function OnRosRefresh(s: ActivityState): (r: Step)
    ensures r.state == s
    ensures !s.master ==> r.out == []
    ensures s.master ==> r.out == Ros.SendPov(s.model.pov) + Ros.SendPano(s.model.pano)
  {
    if IsMaster(s) then Step(s, Ros.SendPov(s.model.pov) + Ros.SendPano(s.model.pano))
    else Step(s, [])
  }

  /** Relays a message built elsewhere to the bus, on the master only
      (`onOutboundRosMessage`). */
  function OnOutboundRos(s: ActivityState, channel: Channel, json: string): (r: Step)
    ensures r.state == s
    ensures s.master ==> r.out == [ToBus(channel, JsonData(json))]
    ensures !s.master ==> r.out == []
  {
    if IsMaster(s) then Step(s, [ToBus(channel, JsonData(json))]) else Step(s, [])
  }

  /** Relays a message built elsewhere to every browser, whatever the role
      (`onOutboundWebsocketMessage`). */
  function OnOutboundWebsocket(s: ActivityState, json: string): (r: Step)
    ensures r.state == s && r.out == [ToBrowser(None, JsonData(json))]
  {
    Step(s, [ToBrowser(None, JsonData(json))])
  }

  /** Takes the browser's links (`onWebsocketLinksMessage`). */
  function OnWebsocketLinks(s: ActivityState, links: Links): (r: Step)
    ensures r.state.model.links == links && !r.state.linksDirty
    ensures r.state.model.pov == s.model.pov && r.state.model.pano == s.model.pano
    ensures r.state.master == s.master && r.state.activated == s.activated
    ensures r.state.movementCounter == s.movementCounter && r.state.lastMoveTime == s.lastMoveTime
    ensures r.out == []
  {
    Step(s.(model := SetLinks(s.model, links), linksDirty := false), [])
  }

  /** Answers a browser refresh (`onWebsocketRefreshMessage`) with the local
      pano and then the local pov, whatever the role. */
  function OnWebsocketRefresh(s: ActivityState): (r: Step)
    ensures r.state == s
    ensures r.out == Websocket.SendPano(s.model.pano) + Websocket.SendPov(s.model.pov)
  {
    Step(s, Websocket.SendPano(s.model.pano) + Websocket.SendPov(s.model.pov))
  }

  /** Takes a pano from the bus (`onRosPanoMessage`) and shows it. */
  function OnRosPano(s: ActivityState, pano: Pano): (r: Step)
    ensures r.state.model.pano == pano && OnlyPanoChanged(s, r.state)
    ensures r.out == Websocket.SendPano(pano)
  {
    var s' := s.(model := SetPano(s.model, pano));
    Step(s', Websocket.SendPano(s'.model.pano))
  }

  /** Takes a pov from the bus (`onRosPovMessage`) and shows it. */
  function OnRosPov(s: ActivityState, pov: Pov): (r: Step)
    ensures r.state.model.pov == pov
    ensures r.state == s.(model := s.model.(pov := pov))
    ensures r.out == Websocket.SendPov(pov)
  {
    var s' := s.(model := SetPov(s.model, pov));
    Step(s', Websocket.SendPov(s'.model.pov))
  }

  /** Dispatches one event to its handler. */
  function Handle(lib: Library, s: ActivityState, e: Event, now: int): (r: Step)
    // the role and activation are never changed by a handler
    ensures r.state.master == s.master && r.state.activated == s.activated
    // a slave never publishes on the bus
    ensures !s.master ==> NoBus(r.out)
    // a pano with a null panoid is never sent anywhere
    ensures NoNullPano(r.out)
    // whatever is published on the bus is the state left behind
    ensures BusCarries(r.out, r.state.model)
    ensures Inv(s) ==> Inv(r.state)
  {
    match e
    case RosAbsState(axes) => OnRosAbsState(lib, s, axes, now)
    case RosInputKey(value) => OnRosInputKey(lib, s, value)
    case RosRefresh => OnRosRefresh(s)
    case RosPov(pov) => OnRosPov(s, pov)
    case RosPano(pano) => OnRosPano(s, pano)
    case WebsocketLinks(links) => OnWebsocketLinks(s, links)
    case WebsocketRefresh => OnWebsocketRefresh(s)
    case OutboundRos(channel, json) => OnOutboundRos(s, channel, json)
    case OutboundWebsocket(json) => OnOutboundWebsocket(s, json)
  }
}
