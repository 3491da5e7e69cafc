/** `StreetviewWebsocket`: what the activity pushes to its browsers. */
module StreetviewWebsocket {
  import opened Wrappers
  import opened StreetviewTypes

  /** Broadcasts a pov-typed message to every browser connection. */
  function SendPov(pov: Pov): (out: seq<Emit>)
    ensures |out| == 1 && out[0].ToBrowser?
    ensures out[0].kind == Some(PovChannel) && out[0].data == PovData(pov)
  {
    [ToBrowser(Some(PovChannel), PovData(pov))]
  }

  /** Broadcasts a pano-typed message, unless the panoid is null. */
  function SendPano(pano: Pano): (out: seq<Emit>)
    ensures pano.panoid.None? <==> out == []
    ensures pano.panoid.Some? ==>
      (|out| == 1 && out[0].ToBrowser?
       && out[0].kind == Some(PanoChannel) && out[0].data == PanoData(pano))
    ensures NoNullPano(out) && NoBus(out)
  {
    if pano.panoid.None? then [] else [ToBrowser(Some(PanoChannel), PanoData(pano))]
  }
}
