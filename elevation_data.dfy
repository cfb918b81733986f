/**
 * The elevation index and the estimator of Class_ElevationData.py.
 *
 * create_elevation keeps every fifth row and every fifth column of an
 * elevation raster and indexes the kept points by rounded elevation, in a
 * dictionary whose insertion order is kept (here a sequence of buckets with
 * distinct keys). The source records a point only when its elevation is
 * new; that loop is FoldAsWritten, and the lemmas about it show the points
 * it drops. The object builds the index the documentation describes, every
 * point under its elevation (FoldAppend). compute_refugees adds, for every
 * bucket whose elevation lies in the flooded band, the refugees of each of
 * its points, and shows the total in millions or billions.
 * build_dico_per_long averages a country's elevation per rounded longitude
 * and keeps what is above the sea.
 */
module Elevation {
  import opened Wrappers
  import opened Numerics
  import opened PointInPolygon
  import opened Continents
  import opened Estimator

  /** One kept raster point: its rounded elevation and rounded (lat, lon). */
  datatype Sample = Sample(elev: int, point: LatLon)

  /** One entry of the index: an elevation and the points recorded for it. */
  datatype Bucket = Bucket(elev: int, points: seq<LatLon>)

  // ---------------------------------------------------------------------
  // Sampling the raster
  // ---------------------------------------------------------------------

  /** The length of `range(0, n, 5)`. */
  function Strides(n: nat): nat
  {
    (n + 4) / 5
  }

  lemma StrideInRange(n: nat, r: nat)
    requires r < Strides(n)
    ensures 5 * r < n
  {
  }

  /** Row `i` of the raster is long enough for every kept column. */
  predicate RowCovered(grid: seq<seq<real>>, i: nat, columns: nat)
  {
    i < |grid| && 5 * columns <= |grid[i]| + 4
  }

  /** Every kept (row, column) index lies inside the raster, so no index error is raised. */
  predicate Covers(lats: seq<real>, lons: seq<real>, grid: seq<seq<real>>)
  {
    forall i :: 0 <= i < |lats| && i % 5 == 0 ==> RowCovered(grid, i, Strides(|lons|))
  }

  /** The sample at row `i`, column `j`: every value rounded to the nearest integer. */
  function Cell(lats: seq<real>, lons: seq<real>, grid: seq<seq<real>>, i: nat, j: nat): Sample
    requires i < |lats| && i < |grid| && j < |lons| && j < |grid[i]|
  {
    Sample(RoundHalfEven(grid[i][j]), LatLon(RoundHalfEven(lats[i]) as real, RoundHalfEven(lons[j]) as real))
  }

  /** The samples of row `i` at the first `c` kept columns 0, 5, ..., 5(c - 1). */
  function RowSamples(lats: seq<real>, lons: seq<real>, grid: seq<seq<real>>, i: nat, c: nat): (ss: seq<Sample>)
    requires i < |lats| && RowCovered(grid, i, Strides(|lons|)) && c <= Strides(|lons|)
    ensures |ss| == c
  {
    if c == 0 then []
    else
      StrideInRange(|lons|, c - 1);
      RowSamples(lats, lons, grid, i, c - 1) + [Cell(lats, lons, grid, i, 5 * (c - 1))]
  }

  /** The samples of the first `r` kept rows 0, 5, ..., 5(r - 1), row after row. */
  function SamplesRows(lats: seq<real>, lons: seq<real>, grid: seq<seq<real>>, r: nat): seq<Sample>
    requires Covers(lats, lons, grid) && r <= Strides(|lats|)
  {
    if r == 0 then []
    else
      StrideInRange(|lats|, r - 1);
      assert RowCovered(grid, 5 * (r - 1), Strides(|lons|));
      SamplesRows(lats, lons, grid, r - 1) + RowSamples(lats, lons, grid, 5 * (r - 1), Strides(|lons|))
  }

  /** Every sample create_elevation visits, in its visiting order. */
  function Samples(lats: seq<real>, lons: seq<real>, grid: seq<seq<real>>): seq<Sample>
    requires Covers(lats, lons, grid)
  {
    SamplesRows(lats, lons, grid, Strides(|lats|))
  }

  lemma {:induction false} RowSamplesLayout(lats: seq<real>, lons: seq<real>, grid: seq<seq<real>>, i: nat, c: nat)
    requires i < |lats| && RowCovered(grid, i, Strides(|lons|)) && c <= Strides(|lons|)
    ensures |RowSamples(lats, lons, grid, i, c)| == c
    ensures forall m :: 0 <= m < c ==> 5 * m < |lons| && RowSamples(lats, lons, grid, i, c)[m] == Cell(lats, lons, grid, i, 5 * m)
  {
    if c > 0 {
      RowSamplesLayout(lats, lons, grid, i, c - 1);
      StrideInRange(|lons|, c - 1);
    }
  }

  /** The position of row r, column c in a row-major table with nc columns. */
  function Pos(r: nat, c: nat, nc: nat): nat
  {
    r * nc + c
  }

  /** Row-major positions: row r, column c of an rr x nc table, split at the last row. */
  lemma RowMajorIndex(r: nat, c: nat, rr: nat, nc: nat)
    requires r < rr && c < nc
    ensures Pos(r, c, nc) < rr * nc
    ensures r < rr - 1 ==> Pos(r, c, nc) < (rr - 1) * nc
    ensures r == rr - 1 ==> Pos(r, c, nc) - (rr - 1) * nc == c && (rr - 1) * nc <= Pos(r, c, nc)
    ensures (rr - 1) * nc + nc == rr * nc
  {
    MulStep(rr - 1, nc);
    MulStep(r, nc);
    MulMonotone(r + 1, rr, nc);
    if r < rr - 1 {
      MulMonotone(r + 1, rr - 1, nc);
    }
  }

  lemma MulStep(a: nat, n: nat)
    ensures (a + 1) * n == a * n + n
  {
  }

  lemma MulMonotone(a: nat, b: nat, n: nat)
    requires a <= b
    ensures a * n <= b * n
  {
    assert b * n == a * n + (b - a) * n;
  }

  /** The layout of SamplesRows(rr), one row at a time. */
  predicate RowsLaidOut(lats: seq<real>, lons: seq<real>, grid: seq<seq<real>>, rr: nat)
    requires Covers(lats, lons, grid) && rr <= Strides(|lats|)
  {
    && |SamplesRows(lats, lons, grid, rr)| == rr * Strides(|lons|)
    && forall r, c :: 0 <= r < rr && 0 <= c < Strides(|lons|) ==>
      && 5 * r < |lats| && 5 * c < |lons| && RowCovered(grid, 5 * r, Strides(|lons|))
      && Pos(r, c, Strides(|lons|)) < rr * Strides(|lons|)
      && SamplesRows(lats, lons, grid, rr)[Pos(r, c, Strides(|lons|))] == Cell(lats, lons, grid, 5 * r, 5 * c)
  }

  lemma {:induction false} SamplesRowsLayout(lats: seq<real>, lons: seq<real>, grid: seq<seq<real>>, rr: nat)
    requires Covers(lats, lons, grid) && rr <= Strides(|lats|)
    ensures RowsLaidOut(lats, lons, grid, rr)
  {
    if rr > 0 {
      SamplesRowsLayout(lats, lons, grid, rr - 1);
      SamplesRowsStep(lats, lons, grid, rr);
    }
  }

  lemma {:induction false} SamplesRowsLength(lats: seq<real>, lons: seq<real>, grid: seq<seq<real>>, rr: nat)
    requires Covers(lats, lons, grid) && rr <= Strides(|lats|)
    ensures |SamplesRows(lats, lons, grid, rr)| == rr * Strides(|lons|)
  {
    if rr > 0 {
      SamplesRowsLength(lats, lons, grid, rr - 1);
      assert (rr - 1) * Strides(|lons|) + Strides(|lons|) == rr * Strides(|lons|);
    }
  }

  lemma SamplesRowsStep(lats: seq<real>, lons: seq<real>, grid: seq<seq<real>>, rr: nat)
    requires Covers(lats, lons, grid) && 0 < rr <= Strides(|lats|)
    requires RowsLaidOut(lats, lons, grid, rr - 1)
    ensures RowsLaidOut(lats, lons, grid, rr)
  {
    SamplesRowsLength(lats, lons, grid, rr);
    forall r, c | 0 <= r < rr && 0 <= c < Strides(|lons|)
      ensures && 5 * r < |lats| && 5 * c < |lons| && RowCovered(grid, 5 * r, Strides(|lons|))
              && Pos(r, c, Strides(|lons|)) < rr * Strides(|lons|)
              && SamplesRows(lats, lons, grid, rr)[Pos(r, c, Strides(|lons|))] == Cell(lats, lons, grid, 5 * r, 5 * c)
    {
      SamplesRowsAt(lats, lons, grid, rr, r, c);
    }
  }

  lemma SamplesRowsAt(lats: seq<real>, lons: seq<real>, grid: seq<seq<real>>, rr: nat, r: nat, c: nat)
    requires Covers(lats, lons, grid) && 0 < rr <= Strides(|lats|)
    requires RowsLaidOut(lats, lons, grid, rr - 1)
    requires r < rr && c < Strides(|lons|)
    ensures |SamplesRows(lats, lons, grid, rr)| == rr * Strides(|lons|)
    ensures 5 * r < |lats| && 5 * c < |lons| && RowCovered(grid, 5 * r, Strides(|lons|))
    ensures Pos(r, c, Strides(|lons|)) < rr * Strides(|lons|)
    ensures SamplesRows(lats, lons, grid, rr)[Pos(r, c, Strides(|lons|))] == Cell(lats, lons, grid, 5 * r, 5 * c)
  {
    var nc := Strides(|lons|);
    StrideInRange(|lats|, rr - 1);
    StrideInRange(|lons|, c);
    assert RowCovered(grid, 5 * (rr - 1), nc);
    RowSamplesLayout(lats, lons, grid, 5 * (rr - 1), nc);
    RowMajorIndex(r, c, rr, nc);
    var front := SamplesRows(lats, lons, grid, rr - 1);
    var row := RowSamples(lats, lons, grid, 5 * (rr - 1), nc);
    assert SamplesRows(lats, lons, grid, rr) == front + row;
    var p := Pos(r, c, nc);
    if r < rr - 1 {
      assert (front + row)[p] == front[p];
    } else {
      assert (front + row)[p] == row[c];
    }
  }

  /**
   * create_elevation visits exactly rows 0, 5, 10, ... of `lats` and columns
   * 0, 5, 10, ... of `lons`, in row-major order: the sample at position
   * Pos(r, c, number of kept columns) comes from row 5r and column 5c.
   */
  lemma SampleLayout(lats: seq<real>, lons: seq<real>, grid: seq<seq<real>>, r: nat, c: nat)
    requires Covers(lats, lons, grid) && r < Strides(|lats|) && c < Strides(|lons|)
    ensures |Samples(lats, lons, grid)| == Strides(|lats|) * Strides(|lons|)
    ensures 5 * r < |lats| && 5 * c < |lons| && 5 * r < |grid| && 5 * c < |grid[5 * r]|
    ensures Pos(r, c, Strides(|lons|)) < |Samples(lats, lons, grid)|
    ensures Samples(lats, lons, grid)[Pos(r, c, Strides(|lons|))] == Cell(lats, lons, grid, 5 * r, 5 * c)
  {
    SamplesRowsLayout(lats, lons, grid, Strides(|lats|));
    StrideInRange(|lons|, c);
    assert RowCovered(grid, 5 * r, Strides(|lons|));
  }

  // ---------------------------------------------------------------------
  // The index, as written and as documented
  // ---------------------------------------------------------------------

  /** The position of key `e` in `d`, or |d| when `e` is not a key (`elev not in dict`). */
  function KeyIndex(d: seq<Bucket>, e: int): (k: nat)
    ensures k <= |d|
    ensures k < |d| ==> d[k].elev == e
    ensures forall j :: 0 <= j < k ==> d[j].elev != e
  {
    if |d| == 0 then 0
    else if d[0].elev == e then 0
    else 1 + KeyIndex(d[1..], e)
  }

  predicate DistinctKeys(d: seq<Bucket>)
  {
    forall j, k :: 0 <= j < k < |d| ==> d[j].elev != d[k].elev
  }

  function KeySet(d: seq<Bucket>): set<int>
  {
    set k | 0 <= k < |d| :: d[k].elev
  }

  /** The rounded elevations of some samples. */
  function Elevations(ss: seq<Sample>): set<int>
  {
    set k | 0 <= k < |ss| :: ss[k].elev
  }

  /** All points of `ss` at elevation `e`, in order: what the documentation promises a bucket holds. */
  function PointsAt(ss: seq<Sample>, e: int): seq<LatLon>
  {
    if |ss| == 0 then []
    else PointsAt(ss[..|ss| - 1], e) + (if ss[|ss| - 1].elev == e then [ss[|ss| - 1].point] else [])
  }

  /** The loop body of create_elevation as written: the append sits inside the "new key" branch. */
  function InsertFirstOnly(d: seq<Bucket>, s: Sample): seq<Bucket>
  {
    if KeyIndex(d, s.elev) < |d| then d else d + [Bucket(s.elev, [s.point])]
  }

  /** The loop body as documented: create the bucket if needed, then always append. */
  function InsertAppend(d: seq<Bucket>, s: Sample): seq<Bucket>
  {
    var k := KeyIndex(d, s.elev);
    if k < |d| then d[k := Bucket(s.elev, d[k].points + [s.point])] else d + [Bucket(s.elev, [s.point])]
  }

  /** The index after create_elevation as written has visited `ss`, starting from `d`. */
  function FoldAsWritten(d: seq<Bucket>, ss: seq<Sample>): seq<Bucket>
  {
    if |ss| == 0 then d else InsertFirstOnly(FoldAsWritten(d, ss[..|ss| - 1]), ss[|ss| - 1])
  }

  /** The index the documentation describes after visiting `ss`, starting from `d`. */
  function FoldAppend(d: seq<Bucket>, ss: seq<Sample>): seq<Bucket>
  {
    if |ss| == 0 then d else InsertAppend(FoldAppend(d, ss[..|ss| - 1]), ss[|ss| - 1])
  }

  lemma SnocPrefix<T>(ss: seq<T>, s: T)
    ensures (ss + [s])[..|ss|] == ss && (ss + [s])[|ss|] == s
  {
  }

  /** An elevation has points in `ss` exactly when it is one of their elevations. */
  lemma {:induction false} PointsAtNonEmpty(ss: seq<Sample>, e: int)
    ensures |PointsAt(ss, e)| > 0 <==> e in Elevations(ss)
  {
    if |ss| > 0 {
      var front := ss[..|ss| - 1];
      PointsAtNonEmpty(front, e);
      assert Elevations(ss) == Elevations(front) + {ss[|ss| - 1].elev} by {
        forall x | x in Elevations(ss) ensures x in Elevations(front) + {ss[|ss| - 1].elev} {
          var k :| 0 <= k < |ss| && ss[k].elev == x;
          if k < |ss| - 1 { assert front[k] == ss[k]; }
        }
        forall x | x in Elevations(front) ensures x in Elevations(ss) {
          var k :| 0 <= k < |front| && front[k].elev == x;
          assert ss[k] == front[k];
        }
      }
    }
  }

  lemma ElevationsSnoc(ss: seq<Sample>, s: Sample)
    ensures Elevations(ss + [s]) == Elevations(ss) + {s.elev}
  {
    var t := ss + [s];
    forall x | x in Elevations(t) ensures x in Elevations(ss) + {s.elev} {
      var k :| 0 <= k < |t| && t[k].elev == x;
      if k < |ss| { assert t[k] == ss[k]; }
    }
    forall x | x in Elevations(ss) ensures x in Elevations(t) {
      var k :| 0 <= k < |ss| && ss[k].elev == x;
      assert t[k] == ss[k];
    }
    assert t[|ss|].elev == s.elev;
  }

  lemma PointsAtSnoc(ss: seq<Sample>, s: Sample, e: int)
    ensures PointsAt(ss + [s], e) == PointsAt(ss, e) + (if s.elev == e then [s.point] else [])
  {
    SnocPrefix(ss, s);
  }

  lemma KeySetSnoc(d: seq<Bucket>, b: Bucket)
    ensures KeySet(d + [b]) == KeySet(d) + {b.elev}
  {
    var t := d + [b];
    forall x | x in KeySet(t) ensures x in KeySet(d) + {b.elev} {
      var k :| 0 <= k < |t| && t[k].elev == x;
      if k < |d| { assert t[k] == d[k]; }
    }
    forall x | x in KeySet(d) ensures x in KeySet(t) {
      var k :| 0 <= k < |d| && d[k].elev == x;
      assert t[k] == d[k];
    }
    assert t[|d|].elev == b.elev;
  }

  /** A key is found by KeyIndex exactly when it is in the key set. */
  lemma KeyIndexFinds(d: seq<Bucket>, e: int)
    ensures KeyIndex(d, e) < |d| <==> e in KeySet(d)
  {
    if e in KeySet(d) {
      var k :| 0 <= k < |d| && d[k].elev == e;
      assert KeyIndex(d, e) <= k;
    }
  }

  /**
   * create_elevation as written, from any index with distinct keys: the old
   * buckets are left exactly as they were, the keys stay distinct, the key
   * set grows by the sampled elevations, and every new bucket holds one
   * point only, the first sampled point at its elevation.
   */
  lemma {:induction false} AsWrittenIndex(d: seq<Bucket>, ss: seq<Sample>)
    requires DistinctKeys(d)
    ensures |FoldAsWritten(d, ss)| >= |d| && FoldAsWritten(d, ss)[..|d|] == d
    ensures DistinctKeys(FoldAsWritten(d, ss))
    ensures KeySet(FoldAsWritten(d, ss)) == KeySet(d) + Elevations(ss)
    ensures forall k :: |d| <= k < |FoldAsWritten(d, ss)| ==>
      && FoldAsWritten(d, ss)[k].elev !in KeySet(d)
      && |PointsAt(ss, FoldAsWritten(d, ss)[k].elev)| > 0
      && FoldAsWritten(d, ss)[k].points == [PointsAt(ss, FoldAsWritten(d, ss)[k].elev)[0]]
  {
    if |ss| > 0 {
      var front, s := ss[..|ss| - 1], ss[|ss| - 1];
      assert ss == front + [s];
      AsWrittenIndex(d, front);
      var prev := FoldAsWritten(d, front);
      ElevationsSnoc(front, s);
      KeyIndexFinds(prev, s.elev);
      forall k | |d| <= k < |prev|
        ensures PointsAt(ss, prev[k].elev) == PointsAt(front, prev[k].elev) + (if s.elev == prev[k].elev then [s.point] else [])
      {
        PointsAtSnoc(front, s, prev[k].elev);
      }
      if KeyIndex(prev, s.elev) == |prev| {
        var next := prev + [Bucket(s.elev, [s.point])];
        assert FoldAsWritten(d, ss) == next;
        KeySetSnoc(prev, Bucket(s.elev, [s.point]));
        assert s.elev !in Elevations(front) by {
          assert s.elev !in KeySet(prev);
        }
        PointsAtNonEmpty(front, s.elev);
        PointsAtSnoc(front, s, s.elev);
        assert next[..|d|] == prev[..|d|];
        forall k | |d| <= k < |next|
          ensures next[k].elev !in KeySet(d) && |PointsAt(ss, next[k].elev)| > 0
          ensures next[k].points == [PointsAt(ss, next[k].elev)[0]]
        {
          if k < |prev| {
            assert next[k] == prev[k];
          } else {
            assert next[k] == Bucket(s.elev, [s.point]);
          }
        }
      } else {
        assert FoldAsWritten(d, ss) == prev;
      }
    }
  }

  /** Started from the empty index, create_elevation as written gives one point per key: the first one sampled. */
  lemma AsWrittenOnePointPerKey(ss: seq<Sample>)
    ensures DistinctKeys(FoldAsWritten([], ss))
    ensures KeySet(FoldAsWritten([], ss)) == Elevations(ss)
    ensures forall k :: 0 <= k < |FoldAsWritten([], ss)| ==>
      && |FoldAsWritten([], ss)[k].points| == 1
      && |PointsAt(ss, FoldAsWritten([], ss)[k].elev)| > 0
      && FoldAsWritten([], ss)[k].points[0] == PointsAt(ss, FoldAsWritten([], ss)[k].elev)[0]
  {
    AsWrittenIndex([], ss);
    assert KeySet([]) == {};
  }

  /**
   * As written, any elevation shared by two or more sampled points gets a
   * bucket that misses all of them but the first.
   */
  lemma AsWrittenDropsPoints(ss: seq<Sample>, e: int)
    requires |PointsAt(ss, e)| >= 2
    ensures exists k :: (0 <= k < |FoldAsWritten([], ss)| && FoldAsWritten([], ss)[k].elev == e
      && |FoldAsWritten([], ss)[k].points| == 1 < |PointsAt(ss, e)|)
  {
    AsWrittenOnePointPerKey(ss);
    PointsAtNonEmpty(ss, e);
    assert e in KeySet(FoldAsWritten([], ss));
    var k :| 0 <= k < |FoldAsWritten([], ss)| && FoldAsWritten([], ss)[k].elev == e;
  }

  /** What the documentation promises of the index after `ss`: distinct keys, the sampled elevations, all points at each. */
  predicate IndexesAll(d: seq<Bucket>, ss: seq<Sample>)
  {
    && DistinctKeys(d)
    && KeySet(d) == Elevations(ss)
    && forall k :: 0 <= k < |d| ==> d[k].points == PointsAt(ss, d[k].elev)
  }

  /** Replacing a bucket by one with the same key keeps the keys. */
  lemma SameKeyUpdate(d: seq<Bucket>, i: nat, b: Bucket)
    requires i < |d| && b.elev == d[i].elev
    ensures KeySet(d[i := b]) == KeySet(d)
    ensures DistinctKeys(d) ==> DistinctKeys(d[i := b])
  {
    var t := d[i := b];
    forall x | x in KeySet(t) ensures x in KeySet(d) {
      var k :| 0 <= k < |t| && t[k].elev == x;
      assert d[k].elev == x;
    }
    forall x | x in KeySet(d) ensures x in KeySet(t) {
      var k :| 0 <= k < |d| && d[k].elev == x;
      assert t[k].elev == x;
    }
  }

  lemma AppendToExisting(prev: seq<Bucket>, front: seq<Sample>, s: Sample)
    requires IndexesAll(prev, front) && KeyIndex(prev, s.elev) < |prev|
    ensures IndexesAll(InsertAppend(prev, s), front + [s])
  {
    var ss := front + [s];
    var i := KeyIndex(prev, s.elev);
    var next := prev[i := Bucket(s.elev, prev[i].points + [s.point])];
    assert InsertAppend(prev, s) == next;
    ElevationsSnoc(front, s);
    SameKeyUpdate(prev, i, Bucket(s.elev, prev[i].points + [s.point]));
    forall k | 0 <= k < |next| ensures next[k].points == PointsAt(ss, next[k].elev) {
      PointsAtSnoc(front, s, next[k].elev);
      if k != i {
        assert next[k] == prev[k];
        assert prev[k].elev != s.elev;
      }
    }
  }

  lemma AppendNewKey(prev: seq<Bucket>, front: seq<Sample>, s: Sample)
    requires IndexesAll(prev, front) && KeyIndex(prev, s.elev) == |prev|
    ensures IndexesAll(InsertAppend(prev, s), front + [s])
  {
    var ss := front + [s];
    var next := prev + [Bucket(s.elev, [s.point])];
    assert InsertAppend(prev, s) == next;
    ElevationsSnoc(front, s);
    KeyIndexFinds(prev, s.elev);
    KeySetSnoc(prev, Bucket(s.elev, [s.point]));
    PointsAtNonEmpty(front, s.elev);
    forall k | 0 <= k < |next| ensures next[k].points == PointsAt(ss, next[k].elev) {
      PointsAtSnoc(front, s, next[k].elev);
      if k < |prev| {
        assert next[k] == prev[k];
        assert prev[k].elev in KeySet(prev);
      }
    }
    assert DistinctKeys(next) by {
      forall j, k | 0 <= j < k < |next| ensures next[j].elev != next[k].elev {
        if k == |prev| {
          assert next[j] == prev[j];
        }
      }
    }
  }

  /** The corrected index, from empty: distinct keys, the sampled elevations, and every point at each. */
  lemma {:induction false} AppendIndex(ss: seq<Sample>)
    ensures IndexesAll(FoldAppend([], ss), ss)
  {
    if |ss| == 0 {
      assert KeySet([]) == {};
    } else {
      var front, s := ss[..|ss| - 1], ss[|ss| - 1];
      assert ss == front + [s];
      AppendIndex(front);
      var prev := FoldAppend([], front);
      if KeyIndex(prev, s.elev) < |prev| {
        AppendToExisting(prev, front, s);
      } else {
        AppendNewKey(prev, front, s);
      }
    }
  }

  /** A 1 x 6 raster of zeros: columns 0 and 5 are kept, and both points sit at elevation 0. */
  const FlatLats: seq<real> := [0.0]
  const FlatLons: seq<real> := [0.0, 1.0, 2.0, 3.0, 4.0, 5.0]
  const FlatGrid: seq<seq<real>> := [[0.0, 0.0, 0.0, 0.0, 0.0, 0.0]]

  lemma FlatSamples()
    ensures Covers(FlatLats, FlatLons, FlatGrid)
    ensures Samples(FlatLats, FlatLons, FlatGrid) == [Sample(0, LatLon(0.0, 0.0)), Sample(0, LatLon(0.0, 5.0))]
  {
    assert Covers(FlatLats, FlatLons, FlatGrid) by {
      assert RowCovered(FlatGrid, 0, Strides(|FlatLons|));
    }
    SampleLayout(FlatLats, FlatLons, FlatGrid, 0, 0);
    SampleLayout(FlatLats, FlatLons, FlatGrid, 0, 1);
    assert RoundHalfEven(0.0) == 0 && RoundHalfEven(5.0) == 5;
  }

  /** On the flat raster the index as written keeps [0, 0] only; the documented one keeps [0, 0] and [0, 5]. */
  lemma FlatRasterIndex()
    ensures Covers(FlatLats, FlatLons, FlatGrid)
    ensures FoldAsWritten([], Samples(FlatLats, FlatLons, FlatGrid)) == [Bucket(0, [LatLon(0.0, 0.0)])]
    ensures FoldAppend([], Samples(FlatLats, FlatLons, FlatGrid)) == [Bucket(0, [LatLon(0.0, 0.0), LatLon(0.0, 5.0)])]
  {
    FlatSamples();
    var s0, s1 := Sample(0, LatLon(0.0, 0.0)), Sample(0, LatLon(0.0, 5.0));
    var ss := [s0, s1];
    assert ss[..1] == [s0] && [s0][..0] == [];
    var one := [Bucket(0, [LatLon(0.0, 0.0)])];
    assert FoldAsWritten([], [s0]) == one;
    assert FoldAppend([], [s0]) == one;
    assert KeyIndex(one, 0) == 0;
    assert FoldAsWritten([], ss) == InsertFirstOnly(one, s1) == one;
    assert FoldAppend([], ss) == InsertAppend(one, s1);
    assert InsertAppend(one, s1) == one[0 := Bucket(0, [LatLon(0.0, 0.0)] + [LatLon(0.0, 5.0)])];
    assert [LatLon(0.0, 0.0)] + [LatLon(0.0, 5.0)] == [LatLon(0.0, 0.0), LatLon(0.0, 5.0)];
  }

  // ---------------------------------------------------------------------
  // The estimate over the index
  // ---------------------------------------------------------------------

  /** The area one kept point stands for: 5 degrees by 5 degrees, at 111.32 km a degree. */
  const CellSurface: real := 5.0 * OneDegree * 5.0 * OneDegree

  /** `elev < elevation_year and elev >= elevation_2022`. */
  predicate InBand(e: int, elevationYear: real, elevation2022: real)
  {
    e as real < elevationYear && e as real >= elevation2022
  }

  /** The refugees of the buckets in the band, in dictionary order. */
  function BandRefugees(d: seq<Bucket>, elevationYear: real, elevation2022: real, years: nat): real
  {
    if |d| == 0 then 0.0
    else
      BandRefugees(d[..|d| - 1], elevationYear, elevation2022, years)
        + (if InBand(d[|d| - 1].elev, elevationYear, elevation2022)
           then PointsRefugees(d[|d| - 1].points, MainRates, years, CellSurface) else 0.0)
  }

  /** The number compute_refugees shows, before formatting. */
  function IndexEstimate(d: seq<Bucket>, year: int, elevationYear: real, elevation2022: real): real
  {
    if year > 2022 then
      BaseRefugees + BandRefugees(d, elevationYear, elevation2022, YearsSince2022(year)) + OtherClimaticRefugees(year) as real
    else BaseRefugees
  }

  lemma BandRefugeesSnoc(d: seq<Bucket>, b: Bucket, elevationYear: real, elevation2022: real, years: nat)
    ensures BandRefugees(d + [b], elevationYear, elevation2022, years)
         == BandRefugees(d, elevationYear, elevation2022, years)
            + (if InBand(b.elev, elevationYear, elevation2022) then PointsRefugees(b.points, MainRates, years, CellSurface) else 0.0)
  {
    SnocPrefix(d, b);
  }

  /** Buckets outside the band add nothing; those inside add all their points. */
  lemma {:induction false} BandRefugeesAppend(d1: seq<Bucket>, d2: seq<Bucket>, elevationYear: real, elevation2022: real, years: nat)
    ensures BandRefugees(d1 + d2, elevationYear, elevation2022, years)
         == BandRefugees(d1, elevationYear, elevation2022, years) + BandRefugees(d2, elevationYear, elevation2022, years)
  {
    if |d2| > 0 {
      var front, b := d2[..|d2| - 1], d2[|d2| - 1];
      assert d1 + d2 == (d1 + front) + [b];
      assert d2 == front + [b];
      BandRefugeesAppend(d1, front, elevationYear, elevation2022, years);
      BandRefugeesSnoc(d1 + front, b, elevationYear, elevation2022, years);
      BandRefugeesSnoc(front, b, elevationYear, elevation2022, years);
    } else {
      assert d1 + d2 == d1;
    }
  }

  /** No bucket in the band: the band adds nothing. */
  lemma {:induction false} EmptyBandAddsNothing(d: seq<Bucket>, elevationYear: real, elevation2022: real, years: nat)
    requires forall k :: 0 <= k < |d| ==> !InBand(d[k].elev, elevationYear, elevation2022)
    ensures BandRefugees(d, elevationYear, elevation2022, years) == 0.0
  {
    if |d| > 0 {
      EmptyBandAddsNothing(d[..|d| - 1], elevationYear, elevation2022, years);
    }
  }

  lemma {:induction false} BandRefugeesNonNegative(d: seq<Bucket>, elevationYear: real, elevation2022: real, years: nat)
    ensures BandRefugees(d, elevationYear, elevation2022, years) >= 0.0
  {
    if |d| > 0 {
      BandRefugeesNonNegative(d[..|d| - 1], elevationYear, elevation2022, years);
      PointsRefugeesNonNegative(d[|d| - 1].points, MainRates, years, CellSurface);
    }
  }

  /** Up to 2022 neither the band nor the other events are counted: exactly 32 million. */
  lemma EstimateUpTo2022(d: seq<Bucket>, year: int, elevationYear: real, elevation2022: real)
    requires year <= 2022
    ensures IndexEstimate(d, year, elevationYear, elevation2022) == 32000000.0
  {
  }

  /** After 2022 an empty band still adds the other-event refugees. */
  lemma EstimateEmptyBand(d: seq<Bucket>, year: int, elevationYear: real, elevation2022: real)
    requires year > 2022
    requires forall k :: 0 <= k < |d| ==> !InBand(d[k].elev, elevationYear, elevation2022)
    ensures IndexEstimate(d, year, elevationYear, elevation2022) == 32000000.0 + OtherClimaticRefugees(year) as real
  {
    EmptyBandAddsNothing(d, elevationYear, elevation2022, YearsSince2022(year));
  }

  /**
   * The estimate is never below 32 million, and above 100 million after
   * 2022, so the million or billion branch always binds a value to show.
   */
  lemma EstimateAtLeastBase(d: seq<Bucket>, year: int, elevationYear: real, elevation2022: real)
    ensures IndexEstimate(d, year, elevationYear, elevation2022) >= 32000000.0
    ensures year > 2022 ==> IndexEstimate(d, year, elevationYear, elevation2022) >= 100000000.0
    ensures Display(IndexEstimate(d, year, elevationYear, elevation2022)).Some?
  {
    BandRefugeesNonNegative(d, elevationYear, elevation2022, YearsSince2022(year));
    OtherAtLeastStart(year);
  }

  /** Every year from 2522 on gives the same estimate: offsets and densities are capped. */
  lemma EstimateCapped(d: seq<Bucket>, y1: int, y2: int, elevationYear: real, elevation2022: real)
    requires 2522 <= y1 && 2522 <= y2
    ensures IndexEstimate(d, y1, elevationYear, elevation2022) == IndexEstimate(d, y2, elevationYear, elevation2022)
  {
    OtherConstantAfterCap(y1, y2);
  }

  /** More elapsed years give every band at least as many refugees. */
  lemma {:induction false} BandRefugeesMonotone(d: seq<Bucket>, elevationYear: real, elevation2022: real, m: nat, n: nat)
    requires m <= n
    ensures BandRefugees(d, elevationYear, elevation2022, m) <= BandRefugees(d, elevationYear, elevation2022, n)
  {
    if |d| > 0 {
      BandRefugeesMonotone(d[..|d| - 1], elevationYear, elevation2022, m, n);
      PointsRefugeesMonotone(d[|d| - 1].points, MainRates, m, n, CellSurface);
    }
  }

  /** The estimate grows with the chosen year. */
  lemma EstimateMonotone(d: seq<Bucket>, y1: int, y2: int, elevationYear: real, elevation2022: real)
    requires y1 <= y2
    ensures IndexEstimate(d, y1, elevationYear, elevation2022) <= IndexEstimate(d, y2, elevationYear, elevation2022)
  {
    EstimateAtLeastBase(d, y2, elevationYear, elevation2022);
    if y1 > 2022 {
      OtherMonotone(y1, y2);
      BandRefugeesMonotone(d, elevationYear, elevation2022, YearsSince2022(y1), YearsSince2022(y2));
    }
  }

  // ---------------------------------------------------------------------
  // The per-longitude profile
  // ---------------------------------------------------------------------

  /** One row of the country file: a longitude and an elevation. */
  datatype ProfileRow = ProfileRow(lon: real, elevation: real)

  /** The longitude rounded to one decimal. */
  function RoundedLon(lon: real): real
  {
    RoundTo(lon, 10.0)
  }

  /** The distinct rounded longitudes, in order of first appearance. */
  function LonKeys(rows: seq<ProfileRow>): seq<real>
  {
    if |rows| == 0 then []
    else
      var ks := LonKeys(rows[..|rows| - 1]);
      var k := RoundedLon(rows[|rows| - 1].lon);
      if k in ks then ks else ks + [k]
  }

  function CountAt(rows: seq<ProfileRow>, key: real): nat
  {
    if |rows| == 0 then 0
    else CountAt(rows[..|rows| - 1], key) + (if RoundedLon(rows[|rows| - 1].lon) == key then 1 else 0)
  }

  function SumAt(rows: seq<ProfileRow>, key: real): real
  {
    if |rows| == 0 then 0.0
    else SumAt(rows[..|rows| - 1], key) + (if RoundedLon(rows[|rows| - 1].lon) == key then rows[|rows| - 1].elevation else 0.0)
  }

  /** The mean elevation of the rows whose rounded longitude is `key`. */
  function MeanAt(rows: seq<ProfileRow>, key: real): real
  {
    if CountAt(rows, key) == 0 then 0.0 else SumAt(rows, key) / CountAt(rows, key) as real
  }

  /** The profile the source documents: each rounded longitude whose mean is above the sea, mapped to the rounded height above it. */
  function Profile(rows: seq<ProfileRow>, seaLevel: real): map<real, int>
  {
    map k | k in LonKeys(rows) && MeanAt(rows, k) > seaLevel :: RoundHalfEven(MeanAt(rows, k) - seaLevel)
  }

  /** A longitude is grouped exactly when some row rounds to it. */
  lemma {:induction false} LonKeysCounted(rows: seq<ProfileRow>, key: real)
    ensures key in LonKeys(rows) <==> CountAt(rows, key) > 0
  {
    if |rows| > 0 {
      LonKeysCounted(rows[..|rows| - 1], key);
    }
  }

  /** The profile's keys are the grouped longitudes whose mean is above the sea, and its values are never negative. */
  lemma ProfileShape(rows: seq<ProfileRow>, seaLevel: real, key: real)
    ensures key in Profile(rows, seaLevel) <==> CountAt(rows, key) > 0 && MeanAt(rows, key) > seaLevel
    ensures key in Profile(rows, seaLevel) ==>
      Profile(rows, seaLevel)[key] == RoundHalfEven(MeanAt(rows, key) - seaLevel) && Profile(rows, seaLevel)[key] >= 0
  {
    LonKeysCounted(rows, key);
  }

  lemma ExampleRounding()
    ensures RoundedLon(2.1) == 2.1 && RoundedLon(5.0) == 5.0
  {
    assert RoundHalfEven(2.1 * 10.0) == 21;
    assert RoundHalfEven(5.0 * 10.0) == 50;
  }

  /** The example's groups: 2.1 with elevations 100 and 80, then 5.0 with -10. */
  lemma ExampleGroups(r0: ProfileRow, r1: ProfileRow, r2: ProfileRow)
    requires r0 == ProfileRow(2.1, 100.0) && r1 == ProfileRow(2.1, 80.0) && r2 == ProfileRow(5.0, -10.0)
    ensures LonKeys([r0, r1, r2]) == [2.1, 5.0]
    ensures MeanAt([r0, r1, r2], 2.1) == 90.0 && MeanAt([r0, r1, r2], 5.0) == -10.0
  {
    ExampleRounding();
    var rows := [r0, r1, r2];
    assert rows[..2] == [r0, r1] && [r0, r1][..1] == [r0] && [r0][..0] == [];
    assert LonKeys([r0]) == [2.1];
    assert LonKeys([r0, r1]) == [2.1];
    assert CountAt([r0], 2.1) == 1 && SumAt([r0], 2.1) == 100.0;
    assert SumAt([r0], 5.0) == SumAt([], 5.0) + 0.0;
    assert CountAt([r0], 5.0) == 0 && SumAt([r0], 5.0) == 0.0;
    assert CountAt([r0, r1], 2.1) == 2 && SumAt([r0, r1], 2.1) == 180.0;
    assert CountAt([r0, r1], 5.0) == 0 && SumAt([r0, r1], 5.0) == 0.0;
    assert CountAt(rows, 2.1) == 2 && SumAt(rows, 2.1) == 180.0;
    assert CountAt(rows, 5.0) == 1 && SumAt(rows, 5.0) == -10.0;
  }

  /** Rows (2.1, 100), (2.1, 80) and (5.0, -10) above a sea at 50 give {2.1: 40}. */
  lemma ProfileExample()
    ensures Profile([ProfileRow(2.1, 100.0), ProfileRow(2.1, 80.0), ProfileRow(5.0, -10.0)], 50.0) == map[2.1 := 40]
  {
    ExampleGroups(ProfileRow(2.1, 100.0), ProfileRow(2.1, 80.0), ProfileRow(5.0, -10.0));
    assert RoundHalfEven(90.0 - 50.0) == 40;
  }

  /** One more kept row. */
  lemma SamplesRowsSnoc(lats: seq<real>, lons: seq<real>, grid: seq<seq<real>>, r: nat)
    requires Covers(lats, lons, grid) && r < Strides(|lats|)
    ensures 5 * r < |lats| && RowCovered(grid, 5 * r, Strides(|lons|))
    ensures SamplesRows(lats, lons, grid, r + 1) == SamplesRows(lats, lons, grid, r) + RowSamples(lats, lons, grid, 5 * r, Strides(|lons|))
  {
    StrideInRange(|lats|, r);
    assert RowCovered(grid, 5 * r, Strides(|lons|));
  }

  /** One more kept column of a row. */
  lemma RowSamplesSnoc(lats: seq<real>, lons: seq<real>, grid: seq<seq<real>>, i: nat, c: nat)
    requires i < |lats| && RowCovered(grid, i, Strides(|lons|)) && c < Strides(|lons|)
    ensures 5 * c < |lons| && 5 * c < |grid[i]|
    ensures RowSamples(lats, lons, grid, i, c + 1) == RowSamples(lats, lons, grid, i, c) + [Cell(lats, lons, grid, i, 5 * c)]
  {
    StrideInRange(|lons|, c);
  }

  /** The inner loop of compute_refugees: add the refugees of each point of one bucket to `total`. */
  method AddBucket(total: real, points: seq<LatLon>, years: nat) returns (sum: real)
    ensures sum == total + PointsRefugees(points, MainRates, years, CellSurface)
  {
    sum := total;
    var m := 0;
    while m < |points|
      invariant 0 <= m <= |points|
      invariant sum == total + PointsRefugees(points[..m], MainRates, years, CellSurface)
    {
      assert points[..m + 1] == points[..m] + [points[m]];
      PointsRefugeesSnoc(points[..m], points[m], MainRates, years, CellSurface);
      sum := sum + PointRefugees(points[m], MainRates, years, CellSurface);
      m := m + 1;
    }
    assert points[..m] == points;
  }

  lemma FoldAppendSnoc(d: seq<Bucket>, ss: seq<Sample>, s: Sample)
    ensures FoldAppend(d, ss + [s]) == InsertAppend(FoldAppend(d, ss), s)
  {
    SnocPrefix(ss, s);
  }

  /** Folding two runs of samples one after the other. */
  lemma {:induction false} FoldAppendConcat(d: seq<Bucket>, s1: seq<Sample>, s2: seq<Sample>)
    ensures FoldAppend(d, s1 + s2) == FoldAppend(FoldAppend(d, s1), s2)
  {
    if |s2| == 0 {
      assert s1 + s2 == s1;
    } else {
      var front, s := s2[..|s2| - 1], s2[|s2| - 1];
      assert s2 == front + [s];
      assert s1 + s2 == (s1 + front) + [s];
      FoldAppendConcat(d, s1, front);
      FoldAppendSnoc(d, s1 + front, s);
      FoldAppendSnoc(FoldAppend(d, s1), front, s);
    }
  }

  /** One corrected insertion keeps the keys distinct. */
  lemma InsertAppendDistinct(d: seq<Bucket>, s: Sample)
    requires DistinctKeys(d)
    ensures DistinctKeys(InsertAppend(d, s))
  {
    var k := KeyIndex(d, s.elev);
    if k < |d| {
      SameKeyUpdate(d, k, Bucket(s.elev, d[k].points + [s.point]));
    } else {
      var next := d + [Bucket(s.elev, [s.point])];
      forall j, m | 0 <= j < m < |next| ensures next[j].elev != next[m].elev {
        if m == |d| {
          assert next[j] == d[j];
        }
      }
    }
  }

  /** The corrected index keeps distinct keys from any start that has them. */
  lemma {:induction false} FoldAppendDistinct(d: seq<Bucket>, ss: seq<Sample>)
    requires DistinctKeys(d)
    ensures DistinctKeys(FoldAppend(d, ss))
  {
    if |ss| > 0 {
      FoldAppendDistinct(d, ss[..|ss| - 1]);
      InsertAppendDistinct(FoldAppend(d, ss[..|ss| - 1]), ss[|ss| - 1]);
    }
  }

  // ---------------------------------------------------------------------
  // The ElevationData object
  // ---------------------------------------------------------------------

  class ElevationData {
    /** Elevation -> points, in insertion order. */
    var elevationDict: seq<Bucket>
    /** The contour polygon of the country, vertices (lon, lat). */
    var polygon: seq<XY>
    /** The estimate made at construction, for 2030 and a 50 m band above 0.21 m. */
    var nbRefugees: Option<Shown>

    predicate Valid()
      reads this
    {
      DistinctKeys(elevationDict)
    }

    /**
     * The initialiser: build the contour polygon, then the index from an
     * empty one, then the estimate for 2030 between 0.21 m and 50 m.
     */
    constructor (contourRows: seq<LatLon>, lats: seq<real>, lons: seq<real>, grid: seq<seq<real>>)
      ensures RingBuildable(Vertices(contourRows)) ==> polygon == Vertices(contourRows)
      ensures Covers(lats, lons, grid) ==> elevationDict == FoldAppend([], Samples(lats, lons, grid))
      ensures Covers(lats, lons, grid) ==> IndexesAll(elevationDict, Samples(lats, lons, grid))
      ensures Covers(lats, lons, grid) ==> nbRefugees == Display(IndexEstimate(elevationDict, 2030, 50.0, 0.21))
      ensures Valid()
    {
      elevationDict := [];
      polygon := [];
      nbRefugees := None;
      new;
      var _ := CreatePolygon(contourRows);
      var ok := CreateElevation(lats, lons, grid);
      if ok {
        AppendIndex(Samples(lats, lons, grid));
      }
      var total, shown := ComputeRefugees(2030, 50.0, 0.21);
      nbRefugees := shown;
    }

    /**
     * create_elevation on an already-read raster: visit the kept rows and
     * columns and record each rounded point under its rounded elevation,
     * creating the bucket when the elevation is new and appending to it in
     * every case (the documented behaviour; FoldAsWritten is the source's
     * first-point-only loop). A raster too small for the kept indices is
     * reported as failure.
     */
    method CreateElevation(lats: seq<real>, lons: seq<real>, grid: seq<seq<real>>) returns (ok: bool)
      requires Valid()
      modifies this
      ensures ok <==> Covers(lats, lons, grid)
      ensures ok ==> elevationDict == FoldAppend(old(elevationDict), Samples(lats, lons, grid))
      ensures !ok ==> elevationDict == old(elevationDict)
      ensures polygon == old(polygon) && nbRefugees == old(nbRefugees)
      ensures Valid()
    {
      if !Covers(lats, lons, grid) {
        return false;
      }
      ok := true;
      ghost var d0 := elevationDict;
      var i := 0;
      ghost var r := 0;
      while i < |lats|
        invariant r <= Strides(|lats|) && i == 5 * r
        invariant elevationDict == FoldAppend(d0, SamplesRows(lats, lons, grid, r))
        invariant polygon == old(polygon) && nbRefugees == old(nbRefugees)
      {
        SamplesRowsSnoc(lats, lons, grid, r);
        FoldAppendConcat(d0, SamplesRows(lats, lons, grid, r), RowSamples(lats, lons, grid, i, Strides(|lons|)));
        RecordRow(lats, lons, grid, i);
        i := i + 5;
        r := r + 1;
      }
      FoldAppendDistinct(d0, Samples(lats, lons, grid));
    }

    /** The inner loop of create_elevation: the kept columns of row `i`. */
    method RecordRow(lats: seq<real>, lons: seq<real>, grid: seq<seq<real>>, i: nat)
      requires i < |lats| && RowCovered(grid, i, Strides(|lons|))
      modifies this
      ensures elevationDict == FoldAppend(old(elevationDict), RowSamples(lats, lons, grid, i, Strides(|lons|)))
      ensures polygon == old(polygon) && nbRefugees == old(nbRefugees)
    {
      ghost var d0 := elevationDict;
      var j := 0;
      ghost var c := 0;
      while j < |lons|
        invariant c <= Strides(|lons|) && j == 5 * c
        invariant elevationDict == FoldAppend(d0, RowSamples(lats, lons, grid, i, c))
        invariant polygon == old(polygon) && nbRefugees == old(nbRefugees)
      {
        RowSamplesSnoc(lats, lons, grid, i, c);
        var lat := RoundHalfEven(lats[i]) as real;
        var lon := RoundHalfEven(lons[j]) as real;
        var elev := RoundHalfEven(grid[i][j]);
        FoldAppendSnoc(d0, RowSamples(lats, lons, grid, i, c), Sample(elev, LatLon(lat, lon)));
        Record(elev, LatLon(lat, lon));
        j := j + 5;
        c := c + 1;
      }
    }

    /** One visit of the loop body: create the bucket of `elev` if it is new, then append `p` to it. */
    method Record(elev: int, p: LatLon)
      modifies this
      ensures elevationDict == InsertAppend(old(elevationDict), Sample(elev, p))
      ensures polygon == old(polygon) && nbRefugees == old(nbRefugees)
    {
      ghost var d0 := elevationDict;
      var k := KeyIndex(elevationDict, elev);
      if k == |elevationDict| {
        elevationDict := elevationDict + [Bucket(elev, [])];
        assert elevationDict[k].points + [p] == [p];
        assert elevationDict[k := Bucket(elev, [p])] == d0 + [Bucket(elev, [p])];
      }
      elevationDict := elevationDict[k := Bucket(elev, elevationDict[k].points + [p])];
    }

    /**
     * create_polygon on an already-read contour table: the vertices (lon, lat)
     * in table order; a table too short for a ring is refused and the
     * polygon kept.
     */
    method CreatePolygon(rows: seq<LatLon>) returns (p: Option<seq<XY>>)
      modifies this
      ensures p.Some? <==> RingBuildable(Vertices(rows))
      ensures p.Some? ==> polygon == Vertices(rows) && p.value == polygon
      ensures p.None? ==> polygon == old(polygon)
      ensures elevationDict == old(elevationDict) && nbRefugees == old(nbRefugees)
    {
      p := PointInPolygon.CreatePolygon(rows);
      if p.Some? {
        polygon := p.value;
      }
    }

    /** test_if_point_in: the clicked (lat, lon) tested as (lon, lat) against the contour. */
    function TestIfPointIn(whereClicked: LatLon): bool
      reads this
    {
      PointInPolygon.TestIfPointIn(whereClicked, polygon)
    }

    /**
     * compute_refugees: from 32 million, after 2022 add the refugees of
     * every point in every bucket of the band [elevation2022, elevationYear),
     * then the other climatic events; show the total in billions or
     * millions. The third outcome of the source, no value bound, never
     * happens.
     */
    method ComputeRefugees(year: int, elevationYear: real, elevation2022: real) returns (total: real, refugees: Option<Shown>)
      ensures total == IndexEstimate(elevationDict, year, elevationYear, elevation2022)
      ensures refugees == Display(total) && refugees.Some?
    {
      total := BaseRefugees;
      var years := YearsSince2022(year);
      if year > 2022 {
        var b := 0;
        while b < |elevationDict|
          invariant 0 <= b <= |elevationDict|
          invariant total == BaseRefugees + BandRefugees(elevationDict[..b], elevationYear, elevation2022, years)
        {
          var bucket := elevationDict[b];
          assert elevationDict[..b + 1] == elevationDict[..b] + [bucket];
          BandRefugeesSnoc(elevationDict[..b], bucket, elevationYear, elevation2022, years);
          if InBand(bucket.elev, elevationYear, elevation2022) {
            var added := AddBucket(total, bucket.points, years);
            total := added;
          }
          b := b + 1;
        }
        assert elevationDict[..b] == elevationDict;
        total := total + OtherClimaticRefugees(year) as real;
      }
      EstimateAtLeastBase(elevationDict, year, elevationYear, elevation2022);
      refugees := Display(total);
    }

    /**
     * build_dico_per_long on an already-read country table: group the rows
     * by longitude rounded to one decimal, and keep each group whose mean
     * elevation is above the sea, rounded height above the sea.
     */
    method BuildDicoPerLong(rows: seq<ProfileRow>, seaLevel: real) returns (dico: map<real, int>)
      ensures dico == Profile(rows, seaLevel)
    {
      var grouped := LonKeys(rows);
      dico := map[];
      var g := 0;
      while g < |grouped|
        invariant 0 <= g <= |grouped|
        invariant dico == map k | k in grouped[..g] && MeanAt(rows, k) > seaLevel :: RoundHalfEven(MeanAt(rows, k) - seaLevel)
      {
        var lon := grouped[g];
        var avgElev := MeanAt(rows, lon);
        assert grouped[..g + 1] == grouped[..g] + [lon];
        if avgElev > seaLevel {
          dico := dico[lon := RoundHalfEven(avgElev - seaLevel)];
        }
        g := g + 1;
      }
      assert grouped[..g] == grouped;
    }
  }
}
