// A map obstacle: the polygon it was loaded from, the convex pieces the
// decomposer cut it into, and one random display colour per piece.

module MapObjects {

  datatype Coordinate = Coordinate(x: real, y: real)

  datatype Polygon = Polygon(coordinates: seq<Coordinate>)

  datatype MapObject = MapObject(polygons: seq<Polygon>, colors: seq<string>, vertices: seq<Coordinate>)

  /** The digits a colour is drawn from. */
  const Letters: string := "0123456789ABCDEF"

  /** A CSS colour of the form #RRGGBB, written with upper-case hex digits. */
  predicate IsColor(s: string)
  {
    |s| == 7 && s[0] == '#' && forall i :: 1 <= i < 7 ==> s[i] in Letters
  }

  /**
   * Six digits drawn at random after a '#'. Each draw is a real in [0, 1), as
   * the host's random source returns, scaled by 16 and rounded down.
   */
  method RandomColor() returns (color: string)
    ensures |color| == 7
    ensures color[0] == '#'
    ensures forall i :: 1 <= i < |color| ==> color[i] in Letters
  {
    color := "#";
    var i := 0;
    while i < 6
      invariant 0 <= i <= 6
      invariant |color| == i + 1 && color[0] == '#'
      invariant forall k :: 1 <= k < |color| ==> color[k] in Letters
    {
      var draw: real :| 0.0 <= draw < 1.0;
      var index := (draw * 16.0).Floor;
      color := color + [Letters[index]];
      i := i + 1;
    }
  }

  /**
   * Builds a map object: the decomposer's output kept as it is, one random
   * colour per piece, and the vertices of the undecomposed polygon.
   */
  method NewMapObject(polygon: Polygon, decompose: Polygon -> seq<Polygon>) returns (m: MapObject)
    ensures m.polygons == decompose(polygon)
    ensures |m.colors| == |m.polygons|
    ensures forall i :: 0 <= i < |m.colors| ==> IsColor(m.colors[i])
    ensures m.vertices == polygon.coordinates
  {
    var polygons := decompose(polygon);
    var colors: seq<string> := [];
    var i := 0;
    while i < |polygons|
      invariant 0 <= i <= |polygons|
      invariant |colors| == i
      invariant forall k :: 0 <= k < i ==> IsColor(colors[k])
    {
      var color := RandomColor();
      colors := colors + [color];
      i := i + 1;
    }
    m := MapObject(polygons, colors, polygon.coordinates);
  }
}
