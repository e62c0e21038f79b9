/**
 * Which line segments loadShpLineVertices emits for a shapefile, and in which order.
 *
 * A record holds one flat point list and the start offsets of its parts; part k runs
 * from Parts[k] up to the next part's start, the last part up to the end of the point
 * list. Every pair of consecutive points inside a part is one segment. Segments come
 * record by record, part by part, and by increasing point index inside a part.
 */
module Segments {
  import opened Geodesy

  datatype Record = Record(points: seq<GeoPoint>, parts: seq<int>)

  datatype Segment = Segment(from: GeoPoint, to: GeoPoint)

  function PartStart(r: Record, k: nat): int
    requires k < |r.parts|
  {
    r.parts[k]
  }

  /** One past the last point index of part k. */
  function PartEnd(r: Record, k: nat): int
    requires k < |r.parts|
  {
    if k < |r.parts| - 1 then r.parts[k + 1] else |r.points|
  }

  /** Number of consecutive point pairs in part k: end - start - 1, or none. */
  function SegmentCount(r: Record, k: nat): nat
    requires k < |r.parts|
  {
    var n := PartEnd(r, k) - PartStart(r, k) - 1;
    if n > 0 then n else 0
  }

  /** Every point the loop over part k reads exists: either the loop does not run,
      or the part lies inside the point list. */
  predicate PartInRange(r: Record, k: nat)
    requires k < |r.parts|
  {
    PartEnd(r, k) - 1 <= PartStart(r, k) || (0 <= PartStart(r, k) && PartEnd(r, k) <= |r.points|)
  }

  /** The first n parts of a record read only existing points. */
  predicate PartsInRange(r: Record, n: nat)
    requires n <= |r.parts|
  {
    n == 0 || (PartsInRange(r, n - 1) && PartInRange(r, n - 1))
  }

  predicate RecordInRange(r: Record)
  {
    PartsInRange(r, |r.parts|)
  }

  /** The first n records read only existing points. */
  predicate RecordsInRange(shp: seq<Record>, n: nat)
    requires n <= |shp|
  {
    n == 0 || (RecordsInRange(shp, n - 1) && RecordInRange(shp[n - 1]))
  }

  predicate AllInRange(shp: seq<Record>)
  {
    RecordsInRange(shp, |shp|)
  }

  /** The segments (points[i], points[i + 1]) for start <= i < end - 1, in order. */
  function Run(points: seq<GeoPoint>, start: int, end: int): (s: seq<Segment>)
    requires end - 1 <= start || (0 <= start && end <= |points|)
    ensures |s| == if end - start - 1 > 0 then end - start - 1 else 0
    decreases end - start
  {
    if end - 1 <= start then []
    else Run(points, start, end - 1) + [Segment(points[end - 2], points[end - 1])]
  }

  function PartSegments(r: Record, k: nat): (s: seq<Segment>)
    requires k < |r.parts| && PartInRange(r, k)
    ensures |s| == SegmentCount(r, k)
  {
    Run(r.points, PartStart(r, k), PartEnd(r, k))
  }

  /** Segments of the first n parts of a record. */
  function RecordSegments(r: Record, n: nat): (s: seq<Segment>)
    requires n <= |r.parts| && PartsInRange(r, n)
    ensures |s| == PartCountSum(r, n)
  {
    if n == 0 then [] else RecordSegments(r, n - 1) + PartSegments(r, n - 1)
  }

  /** Segments of the first n records. */
  function ShpSegments(shp: seq<Record>, n: nat): (s: seq<Segment>)
    requires n <= |shp| && RecordsInRange(shp, n)
    ensures |s| == RecordCountSum(shp, n)
  {
    if n == 0 then []
    else ShpSegments(shp, n - 1) + RecordSegments(shp[n - 1], |shp[n - 1].parts|)
  }

  /** All segments the builder emits for a shapefile. */
  function AllSegments(shp: seq<Record>): seq<Segment>
    requires AllInRange(shp)
  {
    ShpSegments(shp, |shp|)
  }

  // Segment counts, defined on the offsets alone.

  /** Sum of max(0, end - start - 1) over the first n parts of a record. */
  function PartCountSum(r: Record, n: nat): nat
    requires n <= |r.parts|
  {
    if n == 0 then 0 else PartCountSum(r, n - 1) + SegmentCount(r, n - 1)
  }

  /** Sum of the part counts over the first n records. */
  function RecordCountSum(shp: seq<Record>, n: nat): nat
    requires n <= |shp|
  {
    if n == 0 then 0 else RecordCountSum(shp, n - 1) + PartCountSum(shp[n - 1], |shp[n - 1].parts|)
  }

  function TotalSegmentCount(shp: seq<Record>): nat
  {
    RecordCountSum(shp, |shp|)
  }

  /** Position in AllSegments(shp) of the first segment of part k of record ri. */
  function Offset(shp: seq<Record>, ri: nat, k: nat): nat
    requires ri < |shp| && k <= |shp[ri].parts|
  {
    RecordCountSum(shp, ri) + PartCountSum(shp[ri], k)
  }

  // Properties.

  lemma {:induction false} PartsInRangeAt(r: Record, n: nat, k: nat)
    requires n <= |r.parts| && PartsInRange(r, n) && k < n
    ensures PartInRange(r, k)
    decreases n
  {
    if k < n - 1 {
      PartsInRangeAt(r, n - 1, k);
    }
  }

  lemma {:induction false} RecordsInRangeAt(shp: seq<Record>, n: nat, ri: nat)
    requires n <= |shp| && RecordsInRange(shp, n) && ri < n
    ensures RecordInRange(shp[ri])
    decreases n
  {
    if ri < n - 1 {
      RecordsInRangeAt(shp, n - 1, ri);
    }
  }

  lemma {:induction false} PartsInRangePrefix(r: Record, m: nat, n: nat)
    requires m <= n <= |r.parts| && PartsInRange(r, n)
    ensures PartsInRange(r, m)
    decreases n
  {
    if m < n {
      PartsInRangePrefix(r, m, n - 1);
    }
  }

  lemma {:induction false} RecordsInRangePrefix(shp: seq<Record>, m: nat, n: nat)
    requires m <= n <= |shp| && RecordsInRange(shp, n)
    ensures RecordsInRange(shp, m)
    decreases n
  {
    if m < n {
      RecordsInRangePrefix(shp, m, n - 1);
    }
  }

  /** One part that reads outside its point list spoils every longer prefix of parts. */
  lemma {:induction false} PartOutOfRangeSpoils(r: Record, n: nat, k: nat)
    requires k < n <= |r.parts| && !PartInRange(r, k)
    ensures !PartsInRange(r, n)
    decreases n
  {
    if k < n - 1 {
      PartOutOfRangeSpoils(r, n - 1, k);
    }
  }

  /** One record that reads outside its point list spoils every longer prefix of records. */
  lemma {:induction false} RecordOutOfRangeSpoils(shp: seq<Record>, n: nat, ri: nat)
    requires ri < n <= |shp| && !RecordInRange(shp[ri])
    ensures !RecordsInRange(shp, n)
    decreases n
  {
    if ri < n - 1 {
      RecordOutOfRangeSpoils(shp, n - 1, ri);
    }
  }

  lemma {:induction false} PartsInRangeFromAll(r: Record, n: nat)
    requires n <= |r.parts|
    requires forall k :: 0 <= k < n ==> PartInRange(r, k)
    ensures PartsInRange(r, n)
    decreases n
  {
    if n > 0 {
      PartsInRangeFromAll(r, n - 1);
    }
  }

  lemma {:induction false} RecordsInRangeFromAll(shp: seq<Record>, n: nat)
    requires n <= |shp|
    requires forall ri, k :: 0 <= ri < n && 0 <= k < |shp[ri].parts| ==> PartInRange(shp[ri], k)
    ensures RecordsInRange(shp, n)
    decreases n
  {
    if n > 0 {
      RecordsInRangeFromAll(shp, n - 1);
      PartsInRangeFromAll(shp[n - 1], |shp[n - 1].parts|);
    }
  }

  /** The builder reads only existing points exactly when, in every part of every
      record, the loop does not run or the part lies inside the record's point list. */
  lemma AllInRangeMeans(shp: seq<Record>)
    ensures AllInRange(shp) <==>
      forall ri, k :: 0 <= ri < |shp| && 0 <= k < |shp[ri].parts| ==> PartInRange(shp[ri], k)
  {
    if AllInRange(shp) {
      forall ri, k | 0 <= ri < |shp| && 0 <= k < |shp[ri].parts|
        ensures PartInRange(shp[ri], k)
      {
        RecordsInRangeAt(shp, |shp|, ri);
        PartsInRangeAt(shp[ri], |shp[ri].parts|, k);
      }
    } else {
      if forall ri, k :: 0 <= ri < |shp| && 0 <= k < |shp[ri].parts| ==> PartInRange(shp[ri], k) {
        RecordsInRangeFromAll(shp, |shp|);
      }
    }
  }

  /** Run emits exactly the consecutive pairs of its index range. */
  lemma {:induction false} RunAt(points: seq<GeoPoint>, start: int, end: int, j: nat)
    requires end - 1 <= start || (0 <= start && end <= |points|)
    requires j < end - start - 1
    ensures 0 <= start + j && start + j + 1 < |points|
    ensures Run(points, start, end)[j] == Segment(points[start + j], points[start + j + 1])
    decreases end - start
  {
    if j < end - start - 2 {
      RunAt(points, start, end - 1, j);
    }
  }

  /** Part k covers exactly the point pairs of [Parts[k], end), where end is the next
      part's start or the end of the point list; a part of at most one point, or with
      out-of-order offsets, emits nothing. */
  lemma PartCoversItsRange(r: Record, k: nat)
    requires k < |r.parts| && PartInRange(r, k)
    ensures PartSegments(r, k) == [] <==> PartEnd(r, k) <= PartStart(r, k) + 1
    ensures forall j :: 0 <= j < SegmentCount(r, k) ==>
      0 <= PartStart(r, k) + j && PartStart(r, k) + j + 1 < |r.points| &&
      PartSegments(r, k)[j] == Segment(r.points[PartStart(r, k) + j], r.points[PartStart(r, k) + j + 1])
  {
    forall j | 0 <= j < SegmentCount(r, k)
      ensures 0 <= PartStart(r, k) + j && PartStart(r, k) + j + 1 < |r.points|
      ensures PartSegments(r, k)[j] == Segment(r.points[PartStart(r, k) + j], r.points[PartStart(r, k) + j + 1])
    {
      RunAt(r.points, PartStart(r, k), PartEnd(r, k), j);
    }
  }

  /** A record with parts [0, 3] over five points: part 0 gives the pairs 0-1 and 1-2,
      part 1 gives the single pair 3-4, and points 2 and 3 are not joined. */
  lemma TwoPartRecord(p: seq<GeoPoint>)
    requires |p| == 5
    ensures AllInRange([Record(p, [0, 3])])
    ensures AllSegments([Record(p, [0, 3])]) == [Segment(p[0], p[1]), Segment(p[1], p[2]), Segment(p[3], p[4])]
  {
    var r := Record(p, [0, 3]);
    assert PartEnd(r, 0) == 3 && PartEnd(r, 1) == 5;
    assert PartInRange(r, 0) && PartInRange(r, 1);
    PartsInRangeFromAll(r, 2);
    assert RecordsInRange([r], 1) by {
      assert [r][0] == r;
    }
    assert PartSegments(r, 0) == [Segment(p[0], p[1]), Segment(p[1], p[2])] by {
      assert Run(p, 0, 2) == [Segment(p[0], p[1])];
    }
    assert PartSegments(r, 1) == [Segment(p[3], p[4])];
    assert RecordSegments(r, 2) == PartSegments(r, 0) + PartSegments(r, 1);
  }

  /** Walking more parts only appends segments. */
  lemma {:induction false} RecordSegmentsPrefix(r: Record, m: nat, n: nat)
    requires m <= n <= |r.parts| && PartsInRange(r, n)
    ensures PartsInRange(r, m)
    ensures RecordSegments(r, m) <= RecordSegments(r, n)
    decreases n
  {
    PartsInRangePrefix(r, m, n);
    if m < n {
      RecordSegmentsPrefix(r, m, n - 1);
    }
  }

  lemma {:induction false} ShpSegmentsPrefix(shp: seq<Record>, m: nat, n: nat)
    requires m <= n <= |shp| && RecordsInRange(shp, n)
    ensures RecordsInRange(shp, m)
    ensures ShpSegments(shp, m) <= ShpSegments(shp, n)
    decreases n
  {
    RecordsInRangePrefix(shp, m, n);
    if m < n {
      ShpSegmentsPrefix(shp, m, n - 1);
    }
  }

  /** Part k's segments sit in the record's segments after those of parts 0 .. k - 1. */
  lemma RecordSegmentsAt(r: Record, k: nat, j: nat)
    requires RecordInRange(r) && k < |r.parts| && j < SegmentCount(r, k)
    ensures PartInRange(r, k)
    ensures PartCountSum(r, k) + j < |RecordSegments(r, |r.parts|)|
    ensures RecordSegments(r, |r.parts|)[PartCountSum(r, k) + j] == PartSegments(r, k)[j]
  {
    PartsInRangeAt(r, |r.parts|, k);
    RecordSegmentsPrefix(r, k + 1, |r.parts|);
    var pre := RecordSegments(r, k);
    assert RecordSegments(r, k + 1) == pre + PartSegments(r, k);
    assert RecordSegments(r, k + 1)[|pre| + j] == PartSegments(r, k)[j];
  }

  /** Record ri's segments sit in the output after those of records 0 .. ri - 1. */
  lemma ShpSegmentsAt(shp: seq<Record>, ri: nat, g: nat)
    requires AllInRange(shp) && ri < |shp|
    requires g < PartCountSum(shp[ri], |shp[ri].parts|)
    ensures RecordInRange(shp[ri])
    ensures RecordCountSum(shp, ri) + g < |AllSegments(shp)|
    ensures AllSegments(shp)[RecordCountSum(shp, ri) + g] == RecordSegments(shp[ri], |shp[ri].parts|)[g]
  {
    RecordsInRangeAt(shp, |shp|, ri);
    ShpSegmentsPrefix(shp, ri + 1, |shp|);
    var pre := ShpSegments(shp, ri);
    var r := shp[ri];
    assert ShpSegments(shp, ri + 1) == pre + RecordSegments(r, |r.parts|);
    assert ShpSegments(shp, ri + 1)[|pre| + g] == RecordSegments(r, |r.parts|)[g];
  }

  /** Every in-part pair (points[i], points[i + 1]) of part k of record ri is emitted,
      at position Offset(shp, ri, k) + (i - Parts[k]). */
  lemma SegmentsAt(shp: seq<Record>, ri: nat, k: nat, j: nat)
    requires AllInRange(shp)
    requires ri < |shp| && k < |shp[ri].parts| && j < SegmentCount(shp[ri], k)
    ensures 0 <= PartStart(shp[ri], k) + j && PartStart(shp[ri], k) + j + 1 < |shp[ri].points|
    ensures Offset(shp, ri, k) + j < |AllSegments(shp)|
    ensures AllSegments(shp)[Offset(shp, ri, k) + j]
      == Segment(shp[ri].points[PartStart(shp[ri], k) + j], shp[ri].points[PartStart(shp[ri], k) + j + 1])
  {
    var r := shp[ri];
    RecordsInRangeAt(shp, |shp|, ri);
    RecordSegmentsAt(r, k, j);
    PartCoversItsRange(r, k);
    PartCountSumMonotone(r, k + 1, |r.parts|);
    ShpSegmentsAt(shp, ri, PartCountSum(r, k) + j);
  }

  /** Splits a position below PartCountSum(r, n) into a part and an index inside it. */
  lemma {:induction false} PartOfPosition(r: Record, n: nat, g: nat) returns (k: nat, j: nat)
    requires n <= |r.parts| && g < PartCountSum(r, n)
    ensures k < n && j < SegmentCount(r, k) && g == PartCountSum(r, k) + j
    decreases n
  {
    if g < PartCountSum(r, n - 1) {
      k, j := PartOfPosition(r, n - 1, g);
    } else {
      k, j := n - 1, g - PartCountSum(r, n - 1);
    }
  }

  /** Splits a position below RecordCountSum(shp, n) into a record, a part and an index. */
  lemma {:induction false} RecordOfPosition(shp: seq<Record>, n: nat, g: nat) returns (ri: nat, k: nat, j: nat)
    requires n <= |shp| && g < RecordCountSum(shp, n)
    ensures ri < n && k < |shp[ri].parts| && j < SegmentCount(shp[ri], k)
    ensures g == Offset(shp, ri, k) + j
    decreases n
  {
    if g < RecordCountSum(shp, n - 1) {
      ri, k, j := RecordOfPosition(shp, n - 1, g);
    } else {
      ri := n - 1;
      k, j := PartOfPosition(shp[ri], |shp[ri].parts|, g - RecordCountSum(shp, n - 1));
    }
  }

  /** Every emitted segment joins two consecutive points of one part: the last point of
      a part is never joined to the first point of the next. */
  lemma SegmentOrigin(shp: seq<Record>, g: nat) returns (ri: nat, k: nat, i: int)
    requires AllInRange(shp) && g < |AllSegments(shp)|
    ensures ri < |shp| && k < |shp[ri].parts|
    ensures PartStart(shp[ri], k) <= i < PartEnd(shp[ri], k) - 1
    ensures 0 <= i && i + 1 < |shp[ri].points|
    ensures g == Offset(shp, ri, k) + (i - PartStart(shp[ri], k))
    ensures AllSegments(shp)[g] == Segment(shp[ri].points[i], shp[ri].points[i + 1])
  {
    var j;
    ri, k, j := RecordOfPosition(shp, |shp|, g);
    SegmentsAt(shp, ri, k, j);
    i := PartStart(shp[ri], k) + j;
  }

  lemma {:induction false} PartCountSumMonotone(r: Record, m: nat, n: nat)
    requires m <= n <= |r.parts|
    ensures PartCountSum(r, m) <= PartCountSum(r, n)
    decreases n
  {
    if m < n {
      PartCountSumMonotone(r, m, n - 1);
    }
  }

  lemma {:induction false} RecordCountSumMonotone(shp: seq<Record>, m: nat, n: nat)
    requires m <= n <= |shp|
    ensures RecordCountSum(shp, m) <= RecordCountSum(shp, n)
    decreases n
  {
    if m < n {
      RecordCountSumMonotone(shp, m, n - 1);
    }
  }

  /** The segments of a part all come before those of any later part of the same
      record and of every part of a later record. */
  lemma OffsetsFollowWalkOrder(shp: seq<Record>, ri: nat, k: nat, ri': nat, k': nat)
    requires ri < |shp| && k < |shp[ri].parts|
    requires ri' < |shp| && k' <= |shp[ri'].parts|
    requires ri < ri' || (ri == ri' && k < k')
    ensures Offset(shp, ri, k) + SegmentCount(shp[ri], k) <= Offset(shp, ri', k')
  {
    var r := shp[ri];
    if ri == ri' {
      PartCountSumMonotone(r, k + 1, k');
    } else {
      PartCountSumMonotone(r, k + 1, |r.parts|);
      RecordCountSumMonotone(shp, ri + 1, ri');
    }
  }

}
