/** `viewsync.js`: the browser-side relay between the Street View page and
    the activity's socket. It caches the last pov exchanged to drop redundant
    pov sends and receives, and shifts received povs by a per-screen offset.
    Its pano cache is meant to drop redundant panos too but, as written, does
    not: both the as-written pano pair and the corrected one are modelled. */
module ViewSync {
  import opened Wrappers
  import opened StreetviewTypes

  /** A pov as the page reports it, or as it arrives after `parseFloat`. */
  datatype ViewPov = ViewPov(heading: real, pitch: real)

  /** `remotePov`: heading and pitch, each of which may still be null. */
  datatype RemotePov = RemotePov(heading: Option<real>, pitch: Option<real>)

  datatype Fov = Fov(hfov: real, vfov: real)

  /** The `yawOffset` and `pitchOffset` configuration values, as numbers. */
  datatype Config = Config(yawOffset: real, pitchOffset: real)

  /** The JavaScript values `remotePano` can hold. `PanoElement` is the
      page's element with id `pano`, which the browser exposes as the global
      `pano`. */
  datatype JsValue = JsNull | JsUndefined | JsString(s: string) | PanoElement

  datatype ViewSync = ViewSync(
    config: Config,
    yawShift: Option<real>,
    pitchShift: Option<real>,
    remotePov: RemotePov,
    remotePano: JsValue)

  /** What the relay does observably: sends on the socket, or emits a
      change to its listeners. */
  datatype Output =
    | SocketPov(pov: ViewPov)
    | SocketPano(panoid: string)
    | SocketLinks(links: Links)
    | SocketRefresh
    | PovChanged(pov: ViewPov)
    | PanoChanged(panoid: string)

  datatype Result = Result(vs: ViewSync, out: seq<Output>)

  /** The constructor: no shifts yet, nothing exchanged yet. */
  function Init(config: Config): (v: ViewSync)
    ensures v.yawShift.None? && v.pitchShift.None?
    ensures v.remotePov.heading.None? && v.remotePov.pitch.None?
    ensures v.remotePano == JsNull
  {
    ViewSync(config, None, None, RemotePov(None, None), JsNull)
  }

  /** JavaScript `+` on two values that are each a number or null (null
      counts as 0). */
  function JsPlus(a: Option<real>, b: Option<real>): (sum: real)
    ensures a.None? && b.None? ==> sum == 0.0
    ensures a.Some? && b.Some? ==> sum == a.value + b.value
  {
    a.GetOr(0.0) + b.GetOr(0.0)
  }

  /** The cache entry for a pov. */
  function Remember(pov: ViewPov): (c: RemotePov)
    ensures !Differs(pov, c)
  {
    RemotePov(Some(pov.heading), Some(pov.pitch))
  }

  /** `!==` on heading or on pitch. */
  predicate Differs(pov: ViewPov, remote: RemotePov) {
    remote.heading != Some(pov.heading) || remote.pitch != Some(pov.pitch)
  }

  /** `_translatePov`: shifts a pov by the local offsets. */
  function TranslatePov(v: ViewSync, pov: RemotePov): (t: ViewPov)
    // the translated pov lies exactly one shift away from its input, an
    // unset shift counting as no shift
    ensures t.heading - pov.heading.GetOr(0.0) == v.yawShift.GetOr(0.0)
    ensures t.pitch - pov.pitch.GetOr(0.0) == v.pitchShift.GetOr(0.0)
  {
    ViewPov(JsPlus(pov.heading, v.yawShift), JsPlus(pov.pitch, v.pitchShift))
  }

  /** `resize`: on a valid field of view, recomputes the shifts and
      re-applies the cached pov through them (`remotePov` is never null, so
      that guard always passes); on an invalid one, does nothing. Whether a
      field of view is valid is decided by a validation module that is not
      part of this model, passed in as `valid`. */
  function Resize(v: ViewSync, fov: Fov, valid: bool): (r: Result)
    ensures !valid ==> r == Result(v, [])
    ensures valid ==>
      && r.vs.yawShift == Some(v.config.yawOffset * fov.hfov)
      && r.vs.pitchShift == Some(v.config.pitchOffset * fov.vfov)
      && r.vs.remotePov == v.remotePov && r.vs.remotePano == v.remotePano && r.vs.config == v.config
      && r.out == [PovChanged(TranslatePov(r.vs, v.remotePov))]
  {
    if !valid then Result(v, [])
    else
      var v' := v.(yawShift := Some(v.config.yawOffset * fov.hfov),
                   pitchShift := Some(v.config.pitchOffset * fov.vfov));
      Result(v', [PovChanged(TranslatePov(v', v'.remotePov))])
  }

  /** `sendPov`: sends a pov to the relay unless it is the cached one. */
  function SendPov(v: ViewSync, pov: ViewPov): (r: Result)
    ensures Differs(pov, v.remotePov) ==>
      r.out == [SocketPov(pov)] && r.vs == v.(remotePov := Remember(pov))
    ensures !Differs(pov, v.remotePov) ==> r == Result(v, [])
  {
    if Differs(pov, v.remotePov) then Result(v.(remotePov := Remember(pov)), [SocketPov(pov)])
    else Result(v, [])
  }

  /** `_recvPov`: applies a pov from the relay, translated, unless it is the
      cached one. */
  function RecvPov(v: ViewSync, pov: ViewPov): (r: Result)
    ensures Differs(pov, v.remotePov) ==>
      && r.vs == v.(remotePov := Remember(pov))
      && r.out == [PovChanged(TranslatePov(v, Remember(pov)))]
    ensures !Differs(pov, v.remotePov) ==> r == Result(v, [])
  {
    if Differs(pov, v.remotePov) then
      var v' := v.(remotePov := Remember(pov));
      Result(v', [PovChanged(TranslatePov(v', Remember(pov)))])
    else Result(v, [])
  }

  /** `sendLinks`: always sends, with no caching. */
  function SendLinks(v: ViewSync, links: Links): (r: Result)
    ensures r.vs == v && r.out == [SocketLinks(links)]
  {
    Result(v, [SocketLinks(links)])
  }

  /** `refresh`: always asks the relay for the current state. */
  function Refresh(v: ViewSync): (r: Result)
    ensures r.vs == v && r.out == [SocketRefresh]
  {
    Result(v, [SocketRefresh])
  }

  /** The socket's `pov` handler installed by `init`: a pov that passes
      validation is handed to `RecvPov`, anything else is dropped. The
      validation module is not part of this model; its verdict is `valid`. */
  function OnSocketPov(v: ViewSync, pov: ViewPov, valid: bool): (r: Result)
    ensures !valid ==> r == Result(v, [])
    ensures valid ==> r == RecvPov(v, pov)
  {
    if !valid then Result(v, []) else RecvPov(v, pov)
  }

  /** The socket's `pano` handler installed by `init`: a panoid that passes
      validation is handed to `_recvPano` as written, which applies it
      whenever the cache is defined, repeated or not. */
  function OnSocketPano(v: ViewSync, panoid: string, valid: bool): (r: Result)
    ensures !valid ==> r == Result(v, [])
    ensures valid ==> r == RecvPanoAsWritten(v, panoid)
    ensures valid && v.remotePano != JsUndefined ==>
      r.out == [PanoChanged(panoid)] && r.vs.remotePano == JsString(panoid)
  {
    if !valid then Result(v, []) else RecvPanoAsWritten(v, panoid)
  }

  // ---------------------------------------------------------------------
  // Properties of the pov cache
  // ---------------------------------------------------------------------

  /** Sending the same pov twice in a row sends it at most once, and once
      exactly when it was not the cached one. */
  lemma SendPovIdempotent(v: ViewSync, pov: ViewPov)
    ensures var r1 := SendPov(v, pov);
      var r2 := SendPov(r1.vs, pov);
      && r2 == Result(r1.vs, [])
      && (|r1.out + r2.out| == 1 <==> Differs(pov, v.remotePov))
      && (r1.out + r2.out == [] <==> !Differs(pov, v.remotePov))
  {
  }

  /** A pov this page sent and then hears back from the relay is not
      applied again. */
  lemma SentPovEchoIgnored(v: ViewSync, pov: ViewPov)
    ensures var r1 := SendPov(v, pov);
      RecvPov(r1.vs, pov) == Result(r1.vs, [])
  {
  }

  /** When the page reports back the pov it was just told to show, the relay
      sends nothing exactly when this screen has no offset; a screen with an
      offset sends the shifted pov on. */
  lemma AppliedPovFeedback(v: ViewSync, pov: ViewPov)
    requires Differs(pov, v.remotePov)
    ensures var r1 := RecvPov(v, pov);
      var shown := r1.out[0].pov;
      var r2 := SendPov(r1.vs, shown);
      (r2.out == []) <==> (v.yawShift.GetOr(0.0) == 0.0 && v.pitchShift.GetOr(0.0) == 0.0)
  {
  }

  /** After a valid resize, a new pov from the relay is shown shifted by the
      configured offsets scaled by the field of view. */
  lemma ResizeThenRecv(v: ViewSync, fov: Fov, pov: ViewPov)
    requires Differs(pov, v.remotePov)
    ensures var r1 := Resize(v, fov, true);
      var r2 := RecvPov(r1.vs, pov);
      r2.out == [PovChanged(ViewPov(pov.heading + v.config.yawOffset * fov.hfov,
                                    pov.pitch + v.config.pitchOffset * fov.vfov))]
  {
  }

  // ---------------------------------------------------------------------
  // The pano cache, as written and as intended
  // ---------------------------------------------------------------------

  /** The string the `pano` element converts to under `==`; the page's
      markup is not part of this model, a `div` is assumed. */
  const ElementText: string := "[object HTMLDivElement]"

  /** JavaScript `==` between the values `remotePano` and a panoid take. */
  predicate LooseEquals(a: JsValue, b: JsValue) {
    match (a, b)
    case (JsNull, JsNull) => true
    case (JsNull, JsUndefined) => true
    case (JsUndefined, JsNull) => true
    case (JsUndefined, JsUndefined) => true
    case (JsString(x), JsString(y)) => x == y
    case (PanoElement, PanoElement) => true
    case (PanoElement, JsString(y)) => y == ElementText
    case (JsString(x), PanoElement) => x == ElementText
    case _ => false
  }

  /** `sendPano` as written: the cache is set to the global `pano`, the DOM
      element, rather than to the panoid. */
  function SendPanoAsWritten(v: ViewSync, panoid: string): (r: Result)
    // a panoid is sent exactly when it is not loosely equal to the cache,
    // and a send leaves the element, not the panoid, in the cache
    ensures r.out != [] <==> !LooseEquals(v.remotePano, JsString(panoid))
    ensures r.out != [] ==> r == Result(v.(remotePano := PanoElement), [SocketPano(panoid)])
    ensures r.out == [] ==> r.vs == v
    // once anything has been sent, and until a pano is received, every
    // panoid but the element's own text is sent again
    ensures v.remotePano == PanoElement && panoid != ElementText ==>
      r == Result(v, [SocketPano(panoid)])
  {
    if !LooseEquals(v.remotePano, JsString(panoid)) then
      Result(v.(remotePano := PanoElement), [SocketPano(panoid)])
    else Result(v, [])
  }

  /** `_recvPano` as written: it compares `pano.panoid`, a property the DOM
      element does not have (undefined), with the cache. */
  function RecvPanoAsWritten(v: ViewSync, panoid: string): (r: Result)
    ensures v.remotePano != JsUndefined ==>
      r == Result(v.(remotePano := JsString(panoid)), [PanoChanged(panoid)])
  {
    if JsUndefined != v.remotePano then
      Result(v.(remotePano := JsString(panoid)), [PanoChanged(panoid)])
    else Result(v, [])
  }

  /** The cache as written never holds undefined, so `RecvPanoAsWritten`
      always applies. */
  predicate PanoCacheDefined(v: ViewSync) {
    v.remotePano != JsUndefined
  }

  /** As written, neither pano path ever drops a repeat: from the initial
      state, sending "X" twice sends it twice, and receiving "X" twice
      applies it twice. A receive does make a later send of the same panoid
      silent: after sending "X" and receiving "Y", sending "Y" sends
      nothing. */
  lemma AsWrittenPanoRepeats(config: Config)
    ensures var v := Init(config);
      var s1 := SendPanoAsWritten(v, "X");
      var s2 := SendPanoAsWritten(s1.vs, "X");
      s1.out + s2.out == [SocketPano("X"), SocketPano("X")]
    ensures var v := Init(config);
      var r1 := RecvPanoAsWritten(v, "X");
      var r2 := RecvPanoAsWritten(r1.vs, "X");
      r1.out + r2.out == [PanoChanged("X"), PanoChanged("X")]
    ensures var v := Init(config);
      var s1 := SendPanoAsWritten(v, "X");
      var r1 := RecvPanoAsWritten(s1.vs, "Y");
      SendPanoAsWritten(r1.vs, "Y").out == []
  {
  }

  /** As written, every pano received from the relay is applied, whatever
      was exchanged before, on every state the relay can reach. */
  lemma AsWrittenRecvAlwaysApplies(v: ViewSync, panoid: string)
    requires PanoCacheDefined(v)
    ensures RecvPanoAsWritten(v, panoid).out == [PanoChanged(panoid)]
    ensures PanoCacheDefined(RecvPanoAsWritten(v, panoid).vs)
    ensures PanoCacheDefined(SendPanoAsWritten(v, panoid).vs)
  {
  }

  /** `sendPano` as its comment intends: remember the panoid sent. */
  function SendPano(v: ViewSync, panoid: string): (r: Result)
    ensures v.remotePano == JsString(panoid) ==> r == Result(v, [])
    ensures v.remotePano != JsString(panoid) ==>
      r == Result(v.(remotePano := JsString(panoid)), [SocketPano(panoid)])
  {
    if v.remotePano != JsString(panoid) then
      Result(v.(remotePano := JsString(panoid)), [SocketPano(panoid)])
    else Result(v, [])
  }

  /** `_recvPano` as its comment intends: compare the received panoid. */
  function RecvPano(v: ViewSync, panoid: string): (r: Result)
    ensures v.remotePano == JsString(panoid) ==> r == Result(v, [])
    ensures v.remotePano != JsString(panoid) ==>
      r == Result(v.(remotePano := JsString(panoid)), [PanoChanged(panoid)])
  {
    if JsString(panoid) != v.remotePano then
      Result(v.(remotePano := JsString(panoid)), [PanoChanged(panoid)])
    else Result(v, [])
  }

  /** As intended, a repeated pano is sent or applied once, and a pano this
      page sent is not applied again when the relay echoes it. */
  lemma IntendedPanoDeduplicates(v: ViewSync, panoid: string)
    ensures var s1 := SendPano(v, panoid);
      SendPano(s1.vs, panoid).out == [] && RecvPano(s1.vs, panoid).out == []
    ensures var r1 := RecvPano(v, panoid);
      RecvPano(r1.vs, panoid).out == [] && SendPano(r1.vs, panoid).out == []
  {
  }
}
