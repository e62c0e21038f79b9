/**
 * The vertex layout loadShpLineVertices produces: every segment becomes two vertices
 * of four numbers (x, y, z, w = 1), from-point first, for a line-list draw with a
 * 16-byte vertex stride.
 */
module Vertices {
  import opened Geodesy
  import opened Segments

  /** Bytes per element of the Float32Array the vertices are copied into. */
  const FloatBytes: nat := 4

  /** The vertex stride of the line-list pipeline: 4 floats per vertex. */
  const VertexSize: nat := 4 * 4

  /** One vertex in homogeneous coordinates. */
  function Homogeneous(v: Vec3): seq<real>
  {
    [v.x, v.y, v.z, 1.0]
  }

  /** The eight numbers addLine pushes for one segment. */
  function LineVertices(ellipsoid: Ellipsoid, s: Segment): seq<real>
  {
    Homogeneous(SphereToCart(ellipsoid, s.from)) + Homogeneous(SphereToCart(ellipsoid, s.to))
  }

  /** The vertex array for a sequence of segments, in segment order. */
  function LineList(ellipsoid: Ellipsoid, segs: seq<Segment>): (vs: seq<real>)
    ensures |vs| == 8 * |segs|
  {
    if segs == [] then []
    else LineList(ellipsoid, segs[..|segs| - 1]) + LineVertices(ellipsoid, segs[|segs| - 1])
  }

  /** The GPU vertex buffer: the vertex array, copied into 32-bit floats. */
  datatype VertexBuffer = VertexBuffer(data: seq<real>)
  {
    function ByteLength(): nat
    {
      FloatBytes * |data|
    }
  }

  /** The draw call's vertex count: the buffer's byte size divided by the stride
      (a division of JavaScript numbers, so not truncated). */
  function VertexCount(buf: VertexBuffer): real
  {
    buf.ByteLength() as real / VertexSize as real
  }

  // Properties.

  /** Appending one segment appends its eight numbers and changes nothing before them. */
  lemma LineListSnoc(ellipsoid: Ellipsoid, segs: seq<Segment>, s: Segment)
    ensures LineList(ellipsoid, segs + [s]) == LineList(ellipsoid, segs) + LineVertices(ellipsoid, s)
  {
    assert (segs + [s])[..|segs|] == segs;
  }

  /** The vertex array of a concatenation is the concatenation of the vertex arrays. */
  lemma {:induction false} LineListAppend(ellipsoid: Ellipsoid, a: seq<Segment>, b: seq<Segment>)
    ensures LineList(ellipsoid, a + b) == LineList(ellipsoid, a) + LineList(ellipsoid, b)
    decreases |b|
  {
    if b == [] {
      assert a + b == a;
    } else {
      var init, last := b[..|b| - 1], b[|b| - 1];
      assert b == init + [last];
      assert a + b == (a + init) + [last];
      LineListSnoc(ellipsoid, a + init, last);
      LineListSnoc(ellipsoid, init, last);
      LineListAppend(ellipsoid, a, init);
    }
  }

  // One step of each builder loop, stated as the loop invariants need it.

  /** Emitting pair (points[i], points[i + 1]) extends the part's vertices by its eight numbers. */
  lemma RunStep(ellipsoid: Ellipsoid, prefix: seq<real>, points: seq<GeoPoint>, start: int, i: int)
    requires 0 <= start <= i && i + 1 < |points|
    ensures prefix + LineList(ellipsoid, Run(points, start, i + 2))
      == (prefix + LineList(ellipsoid, Run(points, start, i + 1))) + LineVertices(ellipsoid, Segment(points[i], points[i + 1]))
  {
    var emitted, segment := Run(points, start, i + 1), Segment(points[i], points[i + 1]);
    assert Run(points, start, i + 2) == emitted + [segment];
    LineListSnoc(ellipsoid, emitted, segment);
    var before, added := LineList(ellipsoid, emitted), LineVertices(ellipsoid, segment);
    assert prefix + (before + added) == (prefix + before) + added;
  }

  /** Finishing part k extends the record's vertices by the part's vertices. */
  lemma RecordStep(ellipsoid: Ellipsoid, prefix: seq<real>, r: Record, k: nat)
    requires k < |r.parts| && PartsInRange(r, k) && PartInRange(r, k)
    ensures PartsInRange(r, k + 1)
    ensures prefix + LineList(ellipsoid, RecordSegments(r, k + 1))
      == (prefix + LineList(ellipsoid, RecordSegments(r, k))) + LineList(ellipsoid, PartSegments(r, k))
  {
    LineListAppend(ellipsoid, RecordSegments(r, k), PartSegments(r, k));
  }

  /** Finishing record ri extends the shapefile's vertices by the record's vertices. */
  lemma ShpStep(ellipsoid: Ellipsoid, shp: seq<Record>, ri: nat)
    requires ri < |shp| && RecordsInRange(shp, ri) && RecordInRange(shp[ri])
    ensures RecordsInRange(shp, ri + 1)
    ensures LineList(ellipsoid, ShpSegments(shp, ri + 1))
      == LineList(ellipsoid, ShpSegments(shp, ri)) + LineList(ellipsoid, RecordSegments(shp[ri], |shp[ri].parts|))
  {
    LineListAppend(ellipsoid, ShpSegments(shp, ri), RecordSegments(shp[ri], |shp[ri].parts|));
  }

  /** Segment s occupies numbers 8s to 8s + 7: the projected from-point with w = 1,
      then the projected to-point with w = 1. */
  lemma {:induction false} LineListAt(ellipsoid: Ellipsoid, segs: seq<Segment>, s: nat)
    requires s < |segs|
    ensures LineList(ellipsoid, segs)[8 * s .. 8 * s + 4] == Homogeneous(SphereToCart(ellipsoid, segs[s].from))
    ensures LineList(ellipsoid, segs)[8 * s + 4 .. 8 * s + 8] == Homogeneous(SphereToCart(ellipsoid, segs[s].to))
    decreases |segs|
  {
    var init, last := segs[..|segs| - 1], segs[|segs| - 1];
    var a, b := LineList(ellipsoid, init), LineVertices(ellipsoid, last);
    assert LineList(ellipsoid, segs) == a + b;
    if s == |segs| - 1 {
      assert (a + b)[8 * s .. 8 * s + 8] == b;
    } else {
      LineListAt(ellipsoid, init, s);
      assert (a + b)[8 * s .. 8 * s + 8] == a[8 * s .. 8 * s + 8];
    }
  }

  /** The vertex array holds 8 x the sum, over all parts of all records, of
      max(0, end - start - 1) numbers. */
  lemma VertexArrayLength(ellipsoid: Ellipsoid, shp: seq<Record>)
    requires AllInRange(shp)
    ensures |LineList(ellipsoid, AllSegments(shp))| == 8 * TotalSegmentCount(shp)
  {
  }

  /** Every fourth number, the w component of each vertex, is 1. */
  lemma WComponentIsOne(ellipsoid: Ellipsoid, segs: seq<Segment>, m: nat)
    requires m < |LineList(ellipsoid, segs)| / 4
    ensures LineList(ellipsoid, segs)[4 * m + 3] == 1.0
  {
    var vs := LineList(ellipsoid, segs);
    var s, half := m / 2, m % 2;
    assert m == 2 * s + half && s < |segs|;
    LineListAt(ellipsoid, segs, s);
    if half == 0 {
      assert 4 * m + 3 == 8 * s + 3;
      assert vs[8 * s + 3] == vs[8 * s .. 8 * s + 4][3];
    } else {
      assert 4 * m + 3 == 8 * s + 4 + 3;
      assert vs[8 * s + 4 + 3] == vs[8 * s + 4 .. 8 * s + 8][3];
    }
  }

  /** The vertex count of a line-list buffer is two per segment, and the draw covers
      the whole buffer. */
  lemma VertexCountIsTwicePerSegment(ellipsoid: Ellipsoid, segs: seq<Segment>)
    ensures VertexCount(VertexBuffer(LineList(ellipsoid, segs))) == (2 * |segs|) as real
    ensures (2 * |segs|) * VertexSize == VertexBuffer(LineList(ellipsoid, segs)).ByteLength()
  {
    var buf := VertexBuffer(LineList(ellipsoid, segs));
    EightNumbersPerSegment(|segs|);
    assert buf.ByteLength() == FloatBytes * (8 * |segs|);
  }

  lemma EightNumbersPerSegment(n: nat)
    ensures (FloatBytes * (8 * n)) as real / VertexSize as real == (2 * n) as real
    ensures FloatBytes * (8 * n) == (2 * n) * VertexSize
  {
    assert FloatBytes * (8 * n) == 32 * n;
    assert (32 * n) as real == 16.0 * (2 * n) as real;
  }

}
