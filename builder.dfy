/**
 * loadShpLineVertices: the nested record / part / point loops that push two
 * homogeneous vertices per segment onto a growing vertex array, and the vertex
 * counts init derives from the resulting buffers.
 *
 * A point index outside the record's point list reads `undefined` in JavaScript,
 * and sphere2cart then throws on reading its longitude; the builder's caller sees
 * the exception and no buffer. The model returns Failure in that case.
 */
module Builder {
  import opened Wrappers
  import opened Geodesy
  import opened Segments
  import opened Vertices

  /** The undefined point that stops the build: `index` is the point index read. */
  datatype BuildError = UndefinedPoint(record: nat, part: nat, index: int)

  /** Part `part` is the first part of record `r` that reads outside its point list,
      and `index` is the first point index it reads there. */
  predicate FirstUndefinedInRecord(r: Record, part: nat, index: int)
  {
    && part < |r.parts|
    && PartsInRange(r, part)
    && !PartInRange(r, part)
    && index == UndefinedIndex(r, part)
  }

  /** Record `e.record` is the first record whose walk reads outside its point list,
      and `e.part`, `e.index` locate the first such read inside it. */
  predicate FirstUndefinedPoint(shp: seq<Record>, e: BuildError)
  {
    && e.record < |shp|
    && RecordsInRange(shp, e.record)
    && FirstUndefinedInRecord(shp[e.record], e.part, e.index)
  }

  /** The vertex array addLine pushes onto. */
  class VertexArray {
    var items: seq<real>

    constructor ()
      ensures items == []
    {
      items := [];
    }

    /** addLine: pushes the projected from-point and to-point, each with w = 1. */
    method AddLine(ellipsoid: Ellipsoid, fromPoint: GeoPoint, toPoint: GeoPoint)
      modifies this
      ensures items == old(items) + LineVertices(ellipsoid, Segment(fromPoint, toPoint))
    {
      var f := SphereToCart(ellipsoid, fromPoint);
      var t := SphereToCart(ellipsoid, toPoint);
      items := items + [f.x, f.y, f.z, 1.0];
      items := items + [t.x, t.y, t.z, 1.0];
    }
  }

  /** The first point index the loop over part k reads outside the point list:
      the start itself when the first from-point is missing, otherwise the index one
      past the end, read as the to-point. */
  function UndefinedIndex(r: Record, k: nat): int
    requires k < |r.parts|
  {
    var start := PartStart(r, k);
    if start < 0 || start >= |r.points| then start else |r.points|
  }

  /** One iteration of the part loop: pushes the segments of part `partI` of `record`,
      or reports the index of the first undefined point it reads. */
  method AddPartLines(vertexArray: VertexArray, ellipsoid: Ellipsoid, record: Record, partI: nat)
    returns (undefined: Option<int>)
    requires partI < |record.parts|
    modifies vertexArray
    ensures undefined.None? <==> PartInRange(record, partI)
    ensures undefined.Some? ==> undefined.value == UndefinedIndex(record, partI)
    ensures undefined.None? ==>
      vertexArray.items == old(vertexArray.items) + LineList(ellipsoid, PartSegments(record, partI))
  {
    var points := record.points;
    var pointStartI := record.parts[partI];
    var pointEndI := if partI < |record.parts| - 1 then record.parts[partI + 1] else |points|;
    var i := pointStartI;
    while i < pointEndI - 1
      invariant pointStartI <= i
      invariant i == pointStartI || (0 <= pointStartI && i < |points| && i <= pointEndI - 1)
      invariant vertexArray.items == old(vertexArray.items) + LineList(ellipsoid, Run(points, pointStartI, i + 1))
      decreases pointEndI - 1 - i
    {
      if i < 0 || i >= |points| {
        return Some(i);
      }
      if i + 1 >= |points| {
        return Some(i + 1);
      }
      vertexArray.AddLine(ellipsoid, points[i], points[i + 1]);
      RunStep(ellipsoid, old(vertexArray.items), points, pointStartI, i);
      i := i + 1;
    }
    assert Run(points, pointStartI, i + 1) == PartSegments(record, partI);
    return None;
  }

  /** One iteration of the record loop: pushes the segments of every part of
      `record`, or reports the first part and point index that read an undefined point. */
  method AddRecordLines(vertexArray: VertexArray, ellipsoid: Ellipsoid, record: Record)
    returns (undefined: Option<(nat, int)>)
    modifies vertexArray
    ensures undefined.None? <==> RecordInRange(record)
    ensures undefined.Some? ==> FirstUndefinedInRecord(record, undefined.value.0, undefined.value.1)
    ensures undefined.None? ==>
      vertexArray.items == old(vertexArray.items) + LineList(ellipsoid, RecordSegments(record, |record.parts|))
  {
    var partI: nat := 0;
    while partI < |record.parts|
      invariant partI <= |record.parts|
      invariant PartsInRange(record, partI)
      invariant vertexArray.items == old(vertexArray.items) + LineList(ellipsoid, RecordSegments(record, partI))
    {
      var undefined := AddPartLines(vertexArray, ellipsoid, record, partI);
      if undefined.Some? {
        PartOutOfRangeSpoils(record, |record.parts|, partI);
        return Some((partI, undefined.value));
      }
      RecordStep(ellipsoid, old(vertexArray.items), record, partI);
      partI := partI + 1;
    }
    return None;
  }

  /** Builds the line-list vertex buffer of a shapefile: records in order, parts in
      order, and inside a part every pair of consecutive points. */
  method LoadShpLineVertices(ellipsoid: Ellipsoid, shp: seq<Record>) returns (r: Result<VertexBuffer, BuildError>)
    ensures r.Success? <==> AllInRange(shp)
    ensures r.Success? ==> r.value.data == LineList(ellipsoid, AllSegments(shp))
    ensures r.Failure? ==> FirstUndefinedPoint(shp, r.error)
  {
    var vertexArray := new VertexArray();
    var ri: nat := 0;
    while ri < |shp|
      invariant ri <= |shp|
      invariant RecordsInRange(shp, ri)
      invariant vertexArray.items == LineList(ellipsoid, ShpSegments(shp, ri))
    {
      var undefined := AddRecordLines(vertexArray, ellipsoid, shp[ri]);
      if undefined.Some? {
        RecordOutOfRangeSpoils(shp, |shp|, ri);
        return Failure(UndefinedPoint(ri, undefined.value.0, undefined.value.1));
      }
      ShpStep(ellipsoid, shp, ri);
      ri := ri + 1;
    }
    return Success(VertexBuffer(vertexArray.items));
  }

  /** The two line buffers init builds, with their draw vertex counts. */
  datatype LineBuffers = LineBuffers(
    coastlines: VertexBuffer, coastlinesVertexCount: real,
    countries: VertexBuffer, countriesVertexCount: real)

  /** Builds the coastline buffer, then the country buffer, and derives each vertex
      count from the buffer's byte size and the 16-byte stride. A failing coastline
      build stops init before the countries are read. */
  method LoadLineBuffers(ellipsoid: Ellipsoid, coastlines: seq<Record>, countries: seq<Record>)
    returns (r: Result<LineBuffers, BuildError>)
    ensures r.Success? <==> AllInRange(coastlines) && AllInRange(countries)
    ensures r.Success? ==>
      && r.value.coastlines.data == LineList(ellipsoid, AllSegments(coastlines))
      && r.value.coastlinesVertexCount == (2 * |AllSegments(coastlines)|) as real
      && r.value.countries.data == LineList(ellipsoid, AllSegments(countries))
      && r.value.countriesVertexCount == (2 * |AllSegments(countries)|) as real
    ensures r.Failure? && !AllInRange(coastlines) ==> FirstUndefinedPoint(coastlines, r.error)
    ensures r.Failure? && AllInRange(coastlines) ==> FirstUndefinedPoint(countries, r.error)
  {
    var coastlinesBuffer := LoadShpLineVertices(ellipsoid, coastlines);
    if coastlinesBuffer.Failure? {
      return Failure(coastlinesBuffer.error);
    }
    var coastlinesVertexCount := VertexCount(coastlinesBuffer.value);
    var countriesBuffer := LoadShpLineVertices(ellipsoid, countries);
    if countriesBuffer.Failure? {
      return Failure(countriesBuffer.error);
    }
    var countriesVertexCount := VertexCount(countriesBuffer.value);
    VertexCountIsTwicePerSegment(ellipsoid, AllSegments(coastlines));
    VertexCountIsTwicePerSegment(ellipsoid, AllSegments(countries));
    return Success(LineBuffers(coastlinesBuffer.value, coastlinesVertexCount,
                               countriesBuffer.value, countriesVertexCount));
  }

}
