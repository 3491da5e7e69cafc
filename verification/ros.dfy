/** `StreetviewRos`: what the activity publishes on the bus. */
module StreetviewRos {
  import opened StreetviewTypes

  /** Publishes the pov on the pov channel. */
  function SendPov(pov: Pov): (out: seq<Emit>)
    ensures |out| == 1 && out[0].ToBus?
    ensures out[0].channel == PovChannel && out[0].data == PovData(pov)
  {
    [ToBus(PovChannel, PovData(pov))]
  }

  /** Publishes the pano on the pano channel, unless its panoid is null. */
  function SendPano(pano: Pano): (out: seq<Emit>)
    ensures pano.panoid.None? <==> out == []
    ensures pano.panoid.Some? ==>
      (|out| == 1 && out[0].ToBus?
       && out[0].channel == PanoChannel && out[0].data == PanoData(pano))
    ensures NoNullPano(out)
  {
    if pano.panoid.None? then [] else [ToBus(PanoChannel, PanoData(pano))]
  }

  /** Asks the master for the authoritative view with an empty message. */
  function SendRefresh(): (out: seq<Emit>)
    ensures |out| == 1 && out[0].ToBus?
    ensures out[0].channel == RefreshChannel && out[0].data == NoData
  {
    [ToBus(RefreshChannel, NoData)]
  }
}
