/** The arithmetic of the floor map's zoom and pan. The map is drawn with
    `translate(panX, panY) scale(zoomLevel)`, so the content point shown at
    screen offset `x` is `(x - panX) / zoomLevel`. Zooming clamps the level
    to [1, 5] and recomputes the pan so that the content point under the
    focal offset stays where it is. Numbers are exact reals here. */
module Viewport {

  const MinZoom: real := 1.0
  const MaxZoom: real := 5.0

  /** `Math.max(minZoom, Math.min(maxZoom, z))`. */
  function ClampZoom(z: real): (r: real)
    ensures MinZoom <= r <= MaxZoom
    ensures MinZoom <= z <= MaxZoom ==> r == z
    ensures z < MinZoom ==> r == MinZoom
    ensures z > MaxZoom ==> r == MaxZoom
  {
    if z > MaxZoom then MaxZoom else if z < MinZoom then MinZoom else z
  }

  /** The content coordinate shown at screen offset `x`. */
  function ContentAt(x: real, pan: real, zoom: real): real
    requires zoom > 0.0
  {
    (x - pan) / zoom
  }

  /** The new pan after zooming from `oldZoom` to `newZoom` around offset `x`:
      `x - ((x - pan) / oldZoom) * newZoom`. */
  function FocalPan(x: real, pan: real, oldZoom: real, newZoom: real): real
    requires oldZoom > 0.0
  {
    x - ContentAt(x, pan, oldZoom) * newZoom
  }

  /** The content point under the focal offset does not move. */
  lemma FocalPanKeepsPoint(x: real, pan: real, oldZoom: real, newZoom: real)
    requires oldZoom > 0.0 && newZoom > 0.0
    ensures ContentAt(x, FocalPan(x, pan, oldZoom, newZoom), newZoom) == ContentAt(x, pan, oldZoom)
  {
    var c := ContentAt(x, pan, oldZoom);
    assert x - FocalPan(x, pan, oldZoom, newZoom) == c * newZoom;
  }

  /** Zooming in and back out around the same offset restores the pan. */
  lemma FocalPanRoundTrip(x: real, pan: real, z1: real, z2: real)
    requires z1 > 0.0 && z2 > 0.0
    ensures FocalPan(x, FocalPan(x, pan, z1, z2), z2, z1) == pan
  {
    FocalPanKeepsPoint(x, pan, z1, z2);
    var c := ContentAt(x, pan, z1);
    assert x - pan == c * z1;
  }
}
