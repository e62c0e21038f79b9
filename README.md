# Line-list vertex builder of the WebGPU globe

This project models `loadShpLineVertices` from `globe.js`. The globe renderer uses it to turn the
coastline and country outlines of a shapefile into a vertex buffer for a WebGPU line-list draw.

A shapefile is a sequence of records. Each record holds one flat list of points (longitude and
latitude in degrees) and a list of `Parts`, the start offsets of its polylines. Part k runs from
`Parts[k]` up to the next part's start; the last part runs to the end of the point list. The builder
walks the records in order, then their parts in order. For every pair of consecutive points inside a
part it calls `addLine`. `addLine` projects both points onto the globe (`sphere2cart`) and pushes
`x, y, z, 1` for each of them onto a growing vertex array. `init` builds one buffer for the coastlines
and one for the countries. It derives each draw's vertex count as the buffer's byte size divided by the
16-byte vertex stride.

The model has four modules:

- `Geodesy`: points, 3-vectors, and the projection. The ellipsoid arithmetic of `sphere2cart`
  is a function-valued parameter `ellipsoid`. The final axis permutation `[-x, z, y]` is
  modelled exactly, as `WorldAxes`.
- `Segments`: a pure reference definition of which segments the builder emits and in which
  order (`AllSegments`), with the counts and positions of every part's segments.
- `Vertices`: the vertex layout (`LineList`: eight numbers per segment), the GPU buffer and the
  vertex count.
- `Builder`: the builder itself, in imperative form. `VertexArray` is a class whose `AddLine`
  appends to its `items`. Three methods each run one of the source's three nested loops, and each
  is proved against the reference definition.

A part offset outside the point list is not checked by the source. When the inner loop runs over
such a part, `points[i]` or `points[i + 1]` is `undefined`, and `sphere2cart` throws on reading
its `Longitude`. The exception leaves the builder and `init`, and no buffer is made. The model keeps
this error path. The builder returns `Failure(UndefinedPoint(record, part, index))` for the first
read of a missing point in walk order. It succeeds exactly when every part whose loop runs lies
inside its record's point list. A part whose loop never runs (end at most start + 1) is harmless
even when its offsets are out of range, as in the source.

A record with parts `[0, 3]` over five points gives 3 segments, 0-1, 1-2 and 3-4 (6 vertices):
points 2 and 3 lie in different parts and are not joined (`Segments.TwoPartRecord`).

## Model

| member | source | states |
|---|---|---|
| Builder.VertexArray.AddLine | globe.js:7-12 | appends exactly the projected from-point with w = 1, then the projected to-point with w = 1, and leaves everything already in the array unchanged |
| Builder.AddPartLines | globe.js:32-36 | the loop over one part either pushes exactly that part's consecutive point pairs in increasing index order, or stops at the first undefined point; it stops exactly when the part's loop runs and the part is not inside the point list, and it reports the index of that first undefined point |
| Builder.AddRecordLines | globe.js:31-37 | the loop over a record's parts succeeds exactly when every part is in range, then appends the parts' vertices in part order; otherwise it reports the first failing part, with every earlier part in range |
| Builder.LoadShpLineVertices | globe.js:29-38 | the whole builder succeeds exactly when every record is in range, and then the buffer is the line list of the reference segment sequence; on failure the error names the first record, part and point index whose read is undefined, in walk order |
| Builder.LoadLineBuffers | globe.js:189-192 | builds the coastline buffer then the country buffer; succeeds exactly when both shapefiles are in range; each vertex count is twice that buffer's segment count; a coastline failure is reported before the countries are looked at |
| Vertices.LineList | globe.js:10-11 | the vertex array of a segment sequence holds eight numbers per segment |
| Vertices.LineListAt | globe.js:10-11 | segment s occupies numbers 8s to 8s + 7: the projected from-point with w = 1, then the projected to-point with w = 1 |
| Vertices.LineListSnoc | globe.js:7-12 | adding one segment appends its eight numbers and changes nothing before them |
| Vertices.LineListAppend | globe.js:29-38 | the vertex array of two segment sequences in a row is the concatenation of their vertex arrays, so each loop level only appends |
| Vertices.WComponentIsOne | globe.js:10-11 | every element at index 4m + 3 of the vertex array is 1, the homogeneous w component |
| Vertices.VertexArrayLength | globe.js:29-38 | the vertex array has 8 times the sum, over all parts of all records, of max(0, end - start - 1) numbers |
| Vertices.VertexCountIsTwicePerSegment | globe.js:190 | byte size / 16 is exactly twice the number of segments, and the draw of that many vertices covers the whole buffer |
| Vertices.RunStep | globe.js:34-35 | one inner-loop iteration extends the part's vertices by the eight numbers of the pair (points[i], points[i + 1]) |
| Vertices.RecordStep | globe.js:31-36 | finishing part k extends the record's vertices by that part's vertices |
| Vertices.ShpStep | globe.js:29-37 | finishing record ri extends the shapefile's vertices by that record's vertices |
| Segments.Run | globe.js:34-35 | the pairs (points[i], points[i + 1]) for start <= i < end - 1 number max(0, end - start - 1) |
| Segments.PartSegments | globe.js:32-35 | part k yields one segment per consecutive point pair of its range |
| Segments.RecordSegments | globe.js:31-36 | the first n parts of a record yield as many segments as the sum of their pair counts |
| Segments.ShpSegments | globe.js:29-37 | the first n records yield as many segments as the sum of their counts |
| Segments.RunAt | globe.js:34-35 | the j-th pair of a run is (points[start + j], points[start + j + 1]), and both indices exist |
| Segments.PartCoversItsRange | globe.js:32-34 | part k covers exactly the pairs of [Parts[k], end), where end is the next part's start or the point count; it emits nothing exactly when end <= start + 1 (zero or one point, or out-of-order offsets) |
| Segments.TwoPartRecord | globe.js:31-36 | parts [0, 3] over five points give exactly the segments 0-1, 1-2 and 3-4 |
| Segments.AllInRangeMeans | globe.js:32-35 | the builder reads only existing points exactly when, in every part of every record, the loop does not run or the part lies within the point list |
| Segments.SegmentsAt | globe.js:29-36 | every in-part pair (points[i], points[i + 1]) of part k of record ri is emitted, at position Offset(ri, k) + (i - Parts[k]) |
| Segments.SegmentOrigin | globe.js:29-36 | conversely, every emitted segment is an in-part consecutive pair at its own offset, so the last point of a part is never joined to the first of the next |
| Segments.OffsetsFollowWalkOrder | globe.js:29-34 | all segments of a part come before those of any later part of the same record and of every part of a later record |
| Segments.RecordSegmentsAt | globe.js:31-36 | part k's segments sit in the record's segments right after those of parts 0 .. k - 1 |
| Segments.ShpSegmentsAt | globe.js:29-37 | record ri's segments sit in the output right after those of records 0 .. ri - 1 |
| Segments.RecordSegmentsPrefix | globe.js:31-36 | walking more parts only appends segments |
| Segments.ShpSegmentsPrefix | globe.js:29-37 | walking more records only appends segments |
| Segments.PartOutOfRangeSpoils | globe.js:31-35 | a part that reads an undefined point makes its record fail |
| Segments.RecordOutOfRangeSpoils | globe.js:29-35 | a record that reads an undefined point makes the whole shapefile fail |
| Geodesy.WorldAxesInvolution | globe.js:27 | the axis permutation [-x, z, y] undoes itself |
| Geodesy.SphereToCartInjective | globe.js:27 | two points project to the same world position exactly when their ellipsoid coordinates agree, so the permutation loses nothing |

## Left out

- The ellipsoid arithmetic of `sphere2cart` (globe.js:14-26) uses WGS84 flattening with cos, sin and sqrt on doubles. It is the parameter `ellipsoid`; only the axis permutation of line 27 is modelled.
- The `Float32Array` conversion (globe.js:39) rounds doubles to single precision. Buffer contents are modelled as exact reals; only the 4-byte element size enters the byte length.
- WebGPU buffer creation, mapping and unmapping (globe.js:42-49) and the `device` parameter are a foreign GPU API. The buffer is modelled by its contents.
- The rest of `init` (globe.js:52-77, 79-167, 194-226) is left out: asset fetching, device and canvas setup, pipelines, textures, bind groups and the render pass. It is I/O and graphics plumbing. Only the vertex-count lines (78, 189-192) are modelled.
- `getTransformationMatrix` (globe.js:172-187) and the projection matrix (globe.js:168-170) use the external gl-matrix library, which is not part of this model.
- The `frame` loop (globe.js:197-225) is scheduled by the host and depends on the clock.
- The `shp.Records` wrapper object is a sequence of records. `record.Points` and `record.Parts` are its two fields.
- `Parts` entries are integers. A non-integer or non-numeric offset, which JavaScript would still compare and index with, is not modelled.
- Builder.LoadShpLineVertices: the three nested loops of one function are three methods, one loop each (`AddPartLines`, `AddRecordLines`, `LoadShpLineVertices`). They run in the same order with the same bounds.
- Builder.LoadShpLineVertices: on failure the model returns no vertex array. The source's array is local to the call, so the vertices already pushed before the throw are lost there as well.
- Builder.LoadLineBuffers: the thrown `TypeError` is a `Failure` value. Everything `init` would have done after it (the start time and the frame loop, globe.js:195-225) does not happen in either case.
