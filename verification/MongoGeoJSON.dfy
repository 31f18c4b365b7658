/** Geometry as GeoJSON, sections 3.1.1, 3.1.4 and 3.1.6 of RFC 7946 (Source/MongoDB/MongoGeoJSON.ts). */
module MongoGeoJSON {
  import opened Options

  /** A JavaScript number, as far as coordinates care. */
  datatype Number = Finite(value: real) | NotFinite

  datatype Position = Position(longitude: Number, latitude: Number)
  datatype Kind = PointKind | LineStringKind | PolygonKind
  datatype Geometry =
    | Point(position: Position)
    | LineString(points: seq<Position>)
    | Polygon(shell: seq<Position>, holes: seq<seq<Position>>)

  /** A stored value; of a document only the members GeoJSON names are looked at. */
  datatype Json =
    | Nothing
    | Scalar(number: Number)
    | Text(text: string)
    | Items(items: seq<Json>)
    | Document(kind: Option<string>, coordinates: Json)

  function KindOf(g: Geometry): Kind {
    match g
    case Point(_) => PointKind
    case LineString(_) => LineStringKind
    case Polygon(_, _) => PolygonKind
  }

  function Name(k: Kind): string {
    match k
    case PointKind => "Point"
    case LineStringKind => "LineString"
    case PolygonKind => "Polygon"
  }

  // ---- encoding ---------------------------------------------------------------------------------

  predicate Real(p: Position) {
    p.longitude.Finite? && p.latitude.Finite?
  }

  /** Longitude before latitude; None when it throws. */
  function EncodePosition(p: Position): Option<Json> {
    if Real(p) then Some(Items([Scalar(p.longitude), Scalar(p.latitude)])) else None
  }

  function EncodePositions(s: seq<Position>): Option<seq<Json>> {
    if s == [] then Some([]) else
      var first, rest := EncodePosition(s[0]), EncodePositions(s[1..]);
      if first.Some? && rest.Some? then Some([first.value] + rest.value) else None
  }

  predicate ClosedRing(s: seq<Position>) {
    4 <= |s| && s[0] == s[|s| - 1]
  }

  function EncodeRings(rings: seq<seq<Position>>): Option<seq<Json>> {
    if rings == [] then Some([]) else
      var first, rest := EncodePositions(rings[0]), EncodeRings(rings[1..]);
      if first.Some? && ClosedRing(rings[0]) && rest.Some? then Some([Items(first.value)] + rest.value) else None
  }

  function Coordinates(g: Geometry): Option<Json> {
    match g
    case Point(p) => EncodePosition(p)
    case LineString(points) =>
      if |points| < 2 then None else
        var c := EncodePositions(points);
        if c.Some? then Some(Items(c.value)) else None
    case Polygon(shell, holes) =>
      var c := EncodeRings([shell] + holes);
      if c.Some? then Some(Items(c.value)) else None
  }

  function Encode(g: Geometry): Option<Json> {
    var c := Coordinates(g);
    if c.Some? then Some(Document(Some(Name(KindOf(g))), c.value)) else None
  }

  // ---- decoding ---------------------------------------------------------------------------------

  function DecodePosition(j: Json): Option<Position> {
    if j.Items? && |j.items| == 2 && j.items[0].Scalar? && j.items[1].Scalar?
       && j.items[0].number.Finite? && j.items[1].number.Finite?
    then Some(Position(j.items[0].number, j.items[1].number)) else None
  }

  function DecodePositions(s: seq<Json>): Option<seq<Position>> {
    if s == [] then Some([]) else
      var first, rest := DecodePosition(s[0]), DecodePositions(s[1..]);
      if first.Some? && rest.Some? then Some([first.value] + rest.value) else None
  }

  function DecodeRing(j: Json): Option<seq<Position>> {
    if !j.Items? || |j.items| < 4 then None else
      var points := DecodePositions(j.items);
      if points.Some? && ClosedRing(points.value) then points else None
  }

  function DecodeRings(s: seq<Json>): Option<seq<seq<Position>>> {
    if s == [] then Some([]) else
      var first, rest := DecodeRing(s[0]), DecodeRings(s[1..]);
      if first.Some? && rest.Some? then Some([first.value] + rest.value) else None
  }

  function Decode(kind: Kind, j: Json): Option<Geometry> {
    if !j.Document? || j.kind != Some(Name(kind)) || !j.coordinates.Items? then None
    else
      var c := j.coordinates.items;
      match kind
      case PointKind =>
        var p := DecodePosition(j.coordinates);
        if p.Some? then Some(Point(p.value)) else None
      case LineStringKind =>
        var points := DecodePositions(c);
        if 2 <= |c| && points.Some? then Some(LineString(points.value)) else None
      case PolygonKind =>
        var rings := DecodeRings(c);
        if c != [] && rings.Some? && rings.value != [] then Some(Polygon(rings.value[0], rings.value[1..])) else None
  }

  // ---- inverses ---------------------------------------------------------------------------------

  lemma {:induction false} PositionsInvert(s: seq<Position>)
    requires EncodePositions(s).Some?
    ensures |EncodePositions(s).value| == |s| && DecodePositions(EncodePositions(s).value) == Some(s)
  {
    if s != [] {
      PositionsInvert(s[1..]);
      var c := EncodePositions(s).value;
      assert c[1..] == EncodePositions(s[1..]).value;
      assert s == [s[0]] + s[1..];
    }
  }

  lemma {:induction false} PositionsReturn(c: seq<Json>)
    requires DecodePositions(c).Some?
    ensures |DecodePositions(c).value| == |c| && EncodePositions(DecodePositions(c).value) == Some(c)
  {
    if c != [] {
      PositionsReturn(c[1..]);
      var s := DecodePositions(c).value;
      assert s[1..] == DecodePositions(c[1..]).value;
      assert c[0].items == [c[0].items[0], c[0].items[1]];
      assert c == [c[0]] + c[1..];
    }
  }

  lemma {:induction false} RingsInvert(rings: seq<seq<Position>>)
    requires EncodeRings(rings).Some?
    ensures |EncodeRings(rings).value| == |rings| && DecodeRings(EncodeRings(rings).value) == Some(rings)
  {
    if rings != [] {
      PositionsInvert(rings[0]);
      RingsInvert(rings[1..]);
      var c := EncodeRings(rings).value;
      assert c[1..] == EncodeRings(rings[1..]).value;
      assert rings == [rings[0]] + rings[1..];
    }
  }

  lemma {:induction false} RingsReturn(c: seq<Json>)
    requires DecodeRings(c).Some?
    ensures |DecodeRings(c).value| == |c| && EncodeRings(DecodeRings(c).value) == Some(c)
  {
    if c != [] {
      PositionsReturn(c[0].items);
      RingsReturn(c[1..]);
      var rings := DecodeRings(c).value;
      assert rings[1..] == DecodeRings(c[1..]).value;
      assert c == [c[0]] + c[1..];
    }
  }

  /** What is written is read back: every geometry that can be encoded decodes to itself. */
  lemma EncodedDecodes(g: Geometry)
    requires Encode(g).Some?
    ensures Decode(KindOf(g), Encode(g).value) == Some(g)
  {
    match g
    case Point(_) =>
    case LineString(points) => PositionsInvert(points);
    case Polygon(shell, holes) =>
      RingsInvert([shell] + holes);
      assert ([shell] + holes)[1..] == holes;
  }

  /** And only what could have been written is read: a document that decodes is the encoding of what it decodes to. */
  lemma DecodedEncodes(kind: Kind, j: Json)
    requires Decode(kind, j).Some?
    ensures KindOf(Decode(kind, j).value) == kind && Encode(Decode(kind, j).value) == Some(j)
  {
    match kind
    case PointKind => assert j.coordinates.items == [j.coordinates.items[0], j.coordinates.items[1]];
    case LineStringKind => PositionsReturn(j.coordinates.items);
    case PolygonKind =>
      RingsReturn(j.coordinates.items);
      var rings := DecodeRings(j.coordinates.items).value;
      assert [rings[0]] + rings[1..] == rings;
  }

  /** Which geometries can be encoded: finite coordinates, lines of two points or more, closed rings of four or more. */
  predicate Encodable(g: Geometry) {
    match g
    case Point(p) => Real(p)
    case LineString(points) => 2 <= |points| && forall i :: 0 <= i < |points| ==> Real(points[i])
    case Polygon(shell, holes) =>
      && ClosedRing(shell) && (forall i :: 0 <= i < |shell| ==> Real(shell[i]))
      && forall h :: 0 <= h < |holes| ==> ClosedRing(holes[h]) && forall i :: 0 <= i < |holes[h]| ==> Real(holes[h][i])
  }

  lemma {:induction false} PositionsEncodable(s: seq<Position>)
    ensures EncodePositions(s).Some? <==> forall i :: 0 <= i < |s| ==> Real(s[i])
  {
    if s != [] {
      PositionsEncodable(s[1..]);
      assert forall i :: 0 < i < |s| ==> s[i] == s[1..][i - 1];
    }
  }

  lemma {:induction false} RingsEncodable(rings: seq<seq<Position>>)
    ensures EncodeRings(rings).Some? <==>
            forall h :: 0 <= h < |rings| ==> ClosedRing(rings[h]) && forall i :: 0 <= i < |rings[h]| ==> Real(rings[h][i])
  {
    if rings != [] {
      PositionsEncodable(rings[0]);
      RingsEncodable(rings[1..]);
      assert forall i :: 0 < i < |rings| ==> rings[i] == rings[1..][i - 1];
    }
  }

  lemma EncodesExactly(g: Geometry)
    ensures Encode(g).Some? <==> Encodable(g)
  {
    match g
    case Point(_) =>
    case LineString(points) => PositionsEncodable(points);
    case Polygon(shell, holes) =>
      RingsEncodable([shell] + holes);
      var rings := [shell] + holes;
      assert rings[0] == shell && forall h :: 0 <= h < |holes| ==> rings[h + 1] == holes[h];
      assert forall h :: 1 <= h < |rings| ==> rings[h] == holes[h - 1];
  }
}
