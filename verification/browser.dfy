/** What a page does with the messages its activity broadcasts to it. */
module Browser {
  import opened Wrappers
  import opened StreetviewTypes
  import opened StreetviewPanoActivity
  import opened ViewSync

  /** The verdicts of the page's validation module (`validate.pov` and
      `validate.panoid`), which is not part of this model. */
  datatype Validation = Validation(pov: ViewPov -> bool, panoid: string -> bool)

  /** A page handles one broadcast message. Untyped bodies are not decoded
      by this model. */
  function Receive(v: ViewSync, val: Validation, e: Emit): (r: Result)
    ensures r.vs.config == v.config
    ensures r.vs.yawShift == v.yawShift && r.vs.pitchShift == v.pitchShift
    ensures |r.out| <= 1
    ensures !e.ToBrowser? ==> r == Result(v, [])
  {
    match e
    case ToBrowser(Some(PovChannel), PovData(p)) =>
      var pov := ViewPov(p.heading, p.pitch);
      OnSocketPov(v, pov, val.pov(pov))
    case ToBrowser(Some(PanoChannel), PanoData(Pano(Some(id)))) => OnSocketPano(v, id, val.panoid(id))
    case _ => Result(v, [])
  }

  /** A page handles broadcast messages in order. Nothing it receives
      changes its configuration or its shifts, and together the messages
      make it show at most as many changes as there are messages. */
  function ReceiveAll(v: ViewSync, val: Validation, msgs: seq<Emit>): (r: Result)
    ensures r.vs.config == v.config
    ensures r.vs.yawShift == v.yawShift && r.vs.pitchShift == v.pitchShift
    ensures |r.out| <= |msgs|
    decreases |msgs|
  {
    if |msgs| == 0 then Result(v, [])
    else
      var before := ReceiveAll(v, val, msgs[..|msgs| - 1]);
      var step := Receive(before.vs, val, msgs[|msgs| - 1]);
      Result(step.vs, before.out + step.out)
  }

  /** A page's refresh brings it to its activity's view, as far as the
      page's validation accepts it. The answer comes pano first, then pov.
      An accepted non-null pano is applied and cached whether or not it was
      the cached one (the receiver as written never drops a repeat); an
      accepted pov is cached and shown, shifted by the page's offsets, when
      it differs from the cached one. */
  lemma RefreshShowsActivityView(s: ActivityState, v: ViewSync, val: Validation)
    ensures var r := ReceiveAll(v, val, OnWebsocketRefresh(s).out);
      var pov := ViewPov(s.model.pov.heading, s.model.pov.pitch);
      var pano := s.model.pano.panoid;
      var panoShown := pano.Some? && val.panoid(pano.value) && v.remotePano != JsUndefined;
      var povShown := val.pov(pov) && Differs(pov, v.remotePov);
      && r.vs.remotePov == (if val.pov(pov) then Remember(pov) else v.remotePov)
      && r.vs.remotePano == (if panoShown then JsString(pano.value) else v.remotePano)
      && r.out ==
           (if panoShown then [PanoChanged(pano.value)] else [])
           + (if povShown then [PovChanged(TranslatePov(v, Remember(pov)))] else [])
  {
    var msgs := OnWebsocketRefresh(s).out;
    var povMsg := ToBrowser(Some(PovChannel), PovData(s.model.pov));
    if s.model.pano.panoid.Some? {
      var panoMsg := ToBrowser(Some(PanoChannel), PanoData(s.model.pano));
      assert msgs == [panoMsg, povMsg];
      assert msgs[..1] == [panoMsg] && [panoMsg][..0] == [];
      assert ReceiveAll(v, val, []) == Result(v, []);
      var r1 := ReceiveAll(v, val, [panoMsg]);
      assert r1 == Receive(v, val, panoMsg);
    } else {
      assert msgs == [povMsg] && msgs[..0] == [];
      assert ReceiveAll(v, val, []) == Result(v, []);
    }
  }
}
