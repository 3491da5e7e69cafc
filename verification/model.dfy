/** `StreetviewModel`: the in-process record of the current view. */
module StreetviewModel {
  import opened Wrappers
  import opened StreetviewTypes

  const DefaultHeading: real := 0.0
  const DefaultPitch: real := 0.0
  const DefaultPanoid: Option<string> := None

  datatype ViewState = ViewState(pov: Pov, pano: Pano, links: Links)

  /** The state of a freshly constructed model. */
  function Fresh(): (m: ViewState)
    ensures m.pov.heading == 0.0 && m.pov.pitch == 0.0
    ensures m.pano.panoid.None?
    ensures |m.links| == 0
  {
    ViewState(Pov(DefaultHeading, DefaultPitch), Pano(DefaultPanoid), [])
  }

  function SetPov(m: ViewState, pov: Pov): (r: ViewState)
    ensures r.pov == pov
    ensures r.pano == m.pano && r.links == m.links
  {
    m.(pov := pov)
  }

  function SetPano(m: ViewState, pano: Pano): (r: ViewState)
    ensures r.pano == pano
    ensures r.pov == m.pov && r.links == m.links
  {
    m.(pano := pano)
  }

  function SetLinks(m: ViewState, links: Links): (r: ViewState)
    ensures r.links == links
    ensures r.pov == m.pov && r.pano == m.pano
  {
    m.(links := links)
  }
}
