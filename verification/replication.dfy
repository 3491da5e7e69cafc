/** How instances keep each other's view in step: what a peer does with
    the messages another instance published on the bus. */
module Replication {
  import opened Wrappers
  import opened StreetviewTypes
  import opened StreetviewModel
  import opened StreetviewPanoActivity
  import Ros = StreetviewRos
  import Websocket = StreetviewWebsocket

  /** The event a peer's bus subscription raises for a published message.
      Bodies built elsewhere (`JsonData`) are not decoded by this model. */
  function Inbound(e: Emit): (ev: Option<Event>)
    ensures ev.Some? ==> e.ToBus?
    ensures ev == Some(RosRefresh) <==> e.ToBus? && e.channel == RefreshChannel
  {
    match e
    case ToBus(PovChannel, PovData(p)) => Some(RosPov(p))
    case ToBus(PanoChannel, PanoData(p)) => Some(RosPano(p))
    case ToBus(RefreshChannel, _) => Some(RosRefresh)
    case _ => None
  }

  /** What the bus helpers publish is raised at a peer as the matching
      event: a pov as a pov, a non-null pano as a pano, a refresh request as
      a refresh. */
  lemma PublishedDecodes(pov: Pov, pano: Pano)
    ensures Inbound(Ros.SendPov(pov)[0]) == Some(RosPov(pov))
    ensures pano.panoid.Some? ==> Inbound(Ros.SendPano(pano)[0]) == Some(RosPano(pano))
    ensures Inbound(Ros.SendRefresh()[0]) == Some(RosRefresh)
  {
  }

  /** The last pov published in `msgs`, if any. */
  function LastPov(msgs: seq<Emit>): (p: Option<Pov>)
    ensures |msgs| == 0 ==> p.None?
    decreases |msgs|
  {
    if |msgs| == 0 then None
    else match msgs[|msgs| - 1]
      case ToBus(PovChannel, PovData(p)) => Some(p)
      case _ => LastPov(msgs[..|msgs| - 1])
  }

  /** The last pano published in `msgs`, if any. */
  function LastPano(msgs: seq<Emit>): (p: Option<Pano>)
    ensures |msgs| == 0 ==> p.None?
    decreases |msgs|
  {
    if |msgs| == 0 then None
    else match msgs[|msgs| - 1]
      case ToBus(PanoChannel, PanoData(p)) => Some(p)
      case _ => LastPano(msgs[..|msgs| - 1])
  }

  /** A peer in state `p` handles the published messages `msgs` in order.
      Its pov and pano end up as the last ones published (last write wins);
      nothing else about it changes. */
  function Deliver(lib: Library, p: ActivityState, msgs: seq<Emit>, now: int): (r: Step)
    ensures r.state.model.pov == LastPov(msgs).GetOr(p.model.pov)
    ensures r.state.model.pano == LastPano(msgs).GetOr(p.model.pano)
    ensures r.state.model.links == p.model.links
    ensures r.state == p.(model := r.state.model)
    decreases |msgs|
  {
    if |msgs| == 0 then Step(p, [])
    else
      var before := Deliver(lib, p, msgs[..|msgs| - 1], now);
      match Inbound(msgs[|msgs| - 1])
      case None => before
      case Some(ev) =>
        var step := Handle(lib, before.state, ev, now);
        Step(step.state, before.out + step.out)
  }

  /** If every published pov and pano is the one `m` holds, so are the last
      ones. */
  lemma {:induction false} LastIsCarried(msgs: seq<Emit>, m: ViewState)
    requires BusCarries(msgs, m)
    ensures LastPov(msgs).Some? ==> LastPov(msgs).value == m.pov
    ensures LastPano(msgs).Some? ==> LastPano(msgs).value == m.pano
    decreases |msgs|
  {
    if |msgs| > 0 {
      var prefix := msgs[..|msgs| - 1];
      assert forall i :: 0 <= i < |prefix| ==> prefix[i] == msgs[i];
      LastIsCarried(prefix, m);
      assert msgs[|msgs| - 1].ToBus? ==>
        (msgs[|msgs| - 1].data.PovData? ==> msgs[|msgs| - 1].data.pov == m.pov);
    }
  }

  /** After any event at one instance, a peer that receives what it
      published holds the same pov if a pov was published, and the same pano
      if a pano was published. */
  lemma PeerFollows(lib: Library, m: ActivityState, e: Event, now: int, p: ActivityState, later: int)
    ensures var r := Handle(lib, m, e, now);
      var q := Deliver(lib, p, r.out, later);
      && (LastPov(r.out).Some? ==> q.state.model.pov == r.state.model.pov)
      && (LastPov(r.out).None? ==> q.state.model.pov == p.model.pov)
      && (LastPano(r.out).Some? ==> q.state.model.pano == r.state.model.pano)
      && (LastPano(r.out).None? ==> q.state.model.pano == p.model.pano)
  {
    var r := Handle(lib, m, e, now);
    LastIsCarried(r.out, r.state.model);
  }

  /** An instance that receives back what it just published (a bus echo),
      before it handles any further local event, ends in exactly the state
      it was in: its pov, pano, links, counter and move clock are untouched. */
  lemma EchoLeavesStateUnchanged(lib: Library, m: ActivityState, e: Event, now: int, later: int)
    ensures var r := Handle(lib, m, e, now);
      Deliver(lib, r.state, r.out, later).state == r.state
  {
  }

  /** There is no echo filter, so an echo handled after a further local
      event is not harmless: a master turning twice that then hears the echo
      of its first turn goes back to the pov of that first turn. */
  lemma DelayedEchoReverts()
    ensures var lib := Library((p: Pov, yaw: real, pitch: real) => Pov(p.heading + yaw, p.pitch + pitch),
                               (links: Links, heading: real) => None);
      var s := Activate(Setup(true, 0));
      var turn := RosAbsState(AbsState(100, 0, 0));
      var r1 := Handle(lib, s, turn, 10000);
      var r2 := Handle(lib, r1.state, turn, 10001);
      var echo := Deliver(lib, r2.state, r1.out, 10002);
      && r1.state.model.pov == Pov(0.32, 0.0)
      && r2.state.model.pov == Pov(0.64, 0.0)
      && echo.state.model.pov == Pov(0.32, 0.0)
  {
  }

  /** A bus refresh answered by a master brings any peer to the master's pov
      and (when the master has one) pano, and the peer shows both in its
      browser. A slave does not answer, so its peers stay as they are. */
  lemma RefreshSyncsPeer(lib: Library, m: ActivityState, p: ActivityState, now: int, later: int)
    ensures var r := Handle(lib, m, RosRefresh, now);
      var q := Deliver(lib, p, r.out, later);
      && (m.master ==> q.state.model.pov == m.model.pov)
      && (m.master && m.model.pano.panoid.Some? ==> q.state.model.pano == m.model.pano)
      && (m.master ==> q.out == Websocket.SendPov(m.model.pov) + Websocket.SendPano(m.model.pano))
      && (!m.master ==> q == Step(p, []))
  {
    var r := Handle(lib, m, RosRefresh, now);
    if m.master {
      var pov := Ros.SendPov(m.model.pov);
      var pano := Ros.SendPano(m.model.pano);
      assert r.out == pov + pano;
      assert (pov + pano)[..1] == pov;
      if m.model.pano.panoid.Some? {
        assert |r.out| == 2 && r.out[..1] == pov;
        assert pov[..0] == [];
        assert Inbound(pov[0]) == Some(RosPov(m.model.pov));
        var q0 := Deliver(lib, p, [], later);
        assert q0 == Step(p, []);
        var q1 := Deliver(lib, p, pov, later);
        assert q1.out == Handle(lib, p, RosPov(m.model.pov), later).out;
        assert q1.out == Websocket.SendPov(m.model.pov);
        assert Inbound(r.out[1]) == Some(RosPano(m.model.pano));
      } else {
        assert r.out == pov && pov[..0] == [];
      }
    }
  }
}
