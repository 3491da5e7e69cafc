/** Value types shared by the Street View activity: the point of view, the
    panorama, its navigable links, the library operations this model takes as
    parameters, and the messages the activity emits. */
module StreetviewTypes {
  import opened Wrappers

  /** A camera orientation in degrees. */
  datatype Pov = Pov(heading: real, pitch: real)

  /** A panorama; an absent panoid is the Java null. */
  datatype Pano = Pano(panoid: Option<string>)

  /** One navigable direction out of the current panorama. */
  datatype Link = Link(heading: real, pano: Option<string>)

  type Links = seq<Link>

  /** The two operations of the support library that the activity calls but
      whose code is not part of this model: `StreetviewPov.translate` and
      `StreetviewLinks.getNearestLink`. Nothing is assumed about them. */
  datatype Library = Library(
    translate: (Pov, real, real) -> Pov,
    nearestLink: (Links, real) -> Option<Link>)

  /** The message types of `MessageTypesStreetview`, used both as bus
      channels and as browser message types; any other channel is opaque. */
  datatype Channel = PovChannel | PanoChannel | RefreshChannel | OtherChannel(name: string)

  /** A message body: a serialised pov or pano, the empty refresh body, or a
      JSON body built elsewhere and only relayed here. */
  datatype Data = PovData(pov: Pov) | PanoData(pano: Pano) | NoData | JsonData(json: string)

  /** One emitted message: published on the bus, or broadcast to every browser
      connection (typed, or a pre-built untyped body). */
  datatype Emit =
    | ToBus(channel: Channel, data: Data)
    | ToBrowser(kind: Option<Channel>, data: Data)

  predicate IsBus(e: Emit) { e.ToBus? }

  /** No emitted message carries a pano whose panoid is absent. */
  predicate NoNullPano(out: seq<Emit>) {
    forall i :: 0 <= i < |out| ==> (out[i].data.PanoData? ==> out[i].data.pano.panoid.Some?)
  }

  predicate NoBus(out: seq<Emit>) {
    forall i :: 0 <= i < |out| ==> !IsBus(out[i])
  }
}
