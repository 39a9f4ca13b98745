/** The flight loop's moving-average filter over GPS positions: three
    5-slot ring buffers written at a shared index, and an average over the
    filled slots. A ghost history of every sample added says which samples
    the slots hold. */
module MovingAverage {
  import opened Base

  /** `GPS_FILTER_SIZE`. */
  const FilterSize: nat := 5

  datatype Vec3 = Vec3(x: real, y: real, z: real)

  function Min(a: nat, b: nat): nat
  {
    if a < b then a else b
  }

  function Xs(s: seq<Vec3>): (r: seq<real>)
    ensures |r| == |s| && forall j :: 0 <= j < |s| ==> r[j] == s[j].x
  {
    if s == [] then [] else Xs(s[..|s| - 1]) + [s[|s| - 1].x]
  }

  function Ys(s: seq<Vec3>): (r: seq<real>)
    ensures |r| == |s| && forall j :: 0 <= j < |s| ==> r[j] == s[j].y
  {
    if s == [] then [] else Ys(s[..|s| - 1]) + [s[|s| - 1].y]
  }

  function Zs(s: seq<Vec3>): (r: seq<real>)
    ensures |r| == |s| && forall j :: 0 <= j < |s| ==> r[j] == s[j].z
  {
    if s == [] then [] else Zs(s[..|s| - 1]) + [s[|s| - 1].z]
  }

  /** The samples a 5-slot window still holds: the last min(n, 5). */
  function Recent(samples: seq<Vec3>): (r: seq<Vec3>)
    ensures |r| == Min(|samples|, FilterSize)
    ensures r == samples[|samples| - |r|..]
  {
    samples[|samples| - Min(|samples|, FilterSize)..]
  }

  /** The component-wise mean of the recent samples. */
  function RecentMean(samples: seq<Vec3>): Vec3
    requires |samples| > 0
  {
    var r := Recent(samples);
    var n := |r| as real;
    Vec3(Sum(Xs(r)) / n, Sum(Ys(r)) / n, Sum(Zs(r)) / n)
  }

  /** A sequence rotated left by `k` has the same sum. */
  lemma SumRotate(s: seq<real>, k: nat)
    requires k <= |s|
    ensures Sum(s[k..] + s[..k]) == Sum(s)
  {
    SumAppend(s[k..], s[..k]);
    SumAppend(s[..k], s[k..]);
    assert s[..k] + s[k..] == s;
  }

  /** In a window of the last five of `n` indices, exactly one index falls
      in each residue class modulo 5. */
  lemma WindowSlot(n: int, q: int)
    requires n >= FilterSize && 0 <= q < FilterSize
    ensures var r := n % FilterSize;
            var j := if q < r then n - r + q else n - FilterSize + (q - r);
            n - FilterSize <= j < n && j % FilterSize == q
  {
    var m := n / FilterSize;
    var r := n % FilterSize;
    assert n == 5 * m + r;
    if q < r {
      assert n - r + q == 5 * m + q;
    } else {
      assert n - FilterSize + (q - r) == 5 * (m - 1) + q;
    }
  }

  /** `buf` is a 5-slot ring buffer whose slot j % 5 holds sample j for
      each of the last `count` samples. */
  ghost predicate RingHolds(buf: seq<real>, s: seq<real>, count: nat)
  {
    && |buf| == FilterSize && count == Min(|s|, FilterSize)
    && forall j :: |s| - count <= j < |s| ==> buf[j % FilterSize] == s[j]
  }

  /** Fewer than five consecutive indices never share a slot. */
  lemma DistinctSlots(n: int, j: int)
    requires n - FilterSize < j < n
    ensures j % FilterSize != n % FilterSize
  {
  }

  /** Writing sample n at slot n % 5 keeps the ring-buffer relation. */
  lemma RingAdd(buf: seq<real>, s: seq<real>, count: nat, v: real)
    requires RingHolds(buf, s, count)
    ensures RingHolds(buf[|s| % FilterSize := v], s + [v], Min(|s| + 1, FilterSize))
  {
    var n := |s|;
    var buf', s' := buf[n % FilterSize := v], s + [v];
    forall j | n + 1 - Min(n + 1, FilterSize) <= j < n + 1
      ensures buf'[j % FilterSize] == s'[j]
    {
      if j < n {
        DistinctSlots(n, j);
      }
    }
  }

  /** Ring-buffer sum: five slots where sample j sits at slot j % 5 add up to
      the last five samples. */
  lemma RingSum(buf: seq<real>, s: seq<real>)
    requires |buf| == FilterSize && |s| >= FilterSize
    requires forall j :: |s| - FilterSize <= j < |s| ==> buf[j % FilterSize] == s[j]
    ensures Sum(buf) == Sum(s[|s| - FilterSize..])
  {
    var n := |s|;
    var w := s[n - FilterSize..];
    var r := n % FilterSize;
    var k := FilterSize - r;
    var rotated := w[k..] + w[..k];
    forall q | 0 <= q < FilterSize
      ensures buf[q] == rotated[q]
    {
      WindowSlot(n, q);
      if q < r {
        assert buf[q] == s[n - r + q] == w[k + q];
      } else {
        assert buf[q] == s[n - FilterSize + (q - r)] == w[q - r];
      }
    }
    assert buf == rotated;
    SumRotate(w, k);
  }

  /** Before the buffer fills, slot j holds sample j. */
  lemma FillingSum(buf: seq<real>, s: seq<real>)
    requires |s| <= |buf|
    requires forall j :: 0 <= j < |s| ==> buf[j] == s[j]
    ensures Sum(buf[..|s|]) == Sum(s)
  {
    assert buf[..|s|] == s;
  }

  /** The first `count` slots of a ring buffer sum to the last `count`
      samples, whether or not the buffer has filled. */
  lemma SlotSums(buf: seq<real>, s: seq<real>, count: nat)
    requires RingHolds(buf, s, count)
    ensures Sum(buf[..count]) == Sum(s[|s| - count..])
  {
    if |s| < FilterSize {
      forall j | 0 <= j < |s| ensures buf[j] == s[j] {
        assert j % FilterSize == j;
      }
      FillingSum(buf, s);
      assert s[|s| - count..] == s;
    } else {
      RingSum(buf, s);
      assert buf[..count] == buf;
    }
  }

  /** `v` lies in the box between `lo` and `hi`, axis by axis. */
  predicate InBox(v: Vec3, lo: Vec3, hi: Vec3)
  {
    lo.x <= v.x <= hi.x && lo.y <= v.y <= hi.y && lo.z <= v.z <= hi.z
  }

  /** The average lies in any box that holds every sample of the window;
      samples that have left the window do not matter. */
  lemma RecentMeanBounds(samples: seq<Vec3>, lo: Vec3, hi: Vec3)
    requires |samples| > 0
    requires forall j :: |samples| - Min(|samples|, FilterSize) <= j < |samples| ==> InBox(samples[j], lo, hi)
    ensures InBox(RecentMean(samples), lo, hi)
  {
    var r := Recent(samples);
    assert forall j :: 0 <= j < |r| ==> InBox(r[j], lo, hi) by {
      forall j | 0 <= j < |r| ensures InBox(r[j], lo, hi) {
        assert r[j] == samples[|samples| - |r| + j];
      }
    }
    var xs, ys, zs := Xs(r), Ys(r), Zs(r);
    assert forall j :: 0 <= j < |xs| ==> lo.x <= xs[j] <= hi.x;
    assert forall j :: 0 <= j < |ys| ==> lo.y <= ys[j] <= hi.y;
    assert forall j :: 0 <= j < |zs| ==> lo.z <= zs[j] <= hi.z;
    MeanBounds(xs, lo.x, hi.x);
    MeanBounds(ys, lo.y, hi.y);
    MeanBounds(zs, lo.z, hi.z);
  }

  /** Three samples average to their middle value. */
  lemma ThreeSampleExample()
    ensures RecentMean([Vec3(1.0, 1.0, 1.0), Vec3(2.0, 2.0, 2.0), Vec3(3.0, 3.0, 3.0)]) == Vec3(2.0, 2.0, 2.0)
  {
    var s := [Vec3(1.0, 1.0, 1.0), Vec3(2.0, 2.0, 2.0), Vec3(3.0, 3.0, 3.0)];
    assert Recent(s) == s;
    assert Xs(s) == [1.0, 2.0, 3.0];
    assert Ys(s) == [1.0, 2.0, 3.0];
    assert Zs(s) == [1.0, 2.0, 3.0];
    var v := [1.0, 2.0, 3.0];
    assert v[..2] == [1.0, 2.0];
    assert [1.0, 2.0][..1] == [1.0];
    assert [1.0][..0] == [];
    assert Sum(v) == 6.0;
  }

  /** Advancing the write index and the saturating count after sample n. */
  lemma AdvanceCursor(n: nat)
    ensures (n % FilterSize + 1) % FilterSize == (n + 1) % FilterSize
    ensures (if Min(n, FilterSize) < FilterSize then Min(n, FilterSize) + 1 else Min(n, FilterSize)) == Min(n + 1, FilterSize)
  {
    var m := n / FilterSize;
    assert n == 5 * m + n % FilterSize;
    if n % FilterSize == 4 {
      assert n + 1 == 5 * (m + 1);
    } else {
      assert n + 1 == 5 * m + (n % FilterSize + 1);
    }
  }

  method WriteSlot(buf: array<real>, i: int, v: real)
    requires 0 <= i < buf.Length
    modifies buf
    ensures buf[..] == old(buf[..])[i := v]
  {
    buf[i] := v;
  }

  /** `gps_filter_t` and the global `gps_filter`. */
  class GpsFilter {
    const xBuffer: array<real>
    const yBuffer: array<real>
    const zBuffer: array<real>
    var index: int
    var count: int
    /** Every sample added so far, oldest first. */
    ghost var samples: seq<Vec3>

    ghost predicate Valid()
      reads this, xBuffer, yBuffer, zBuffer
    {
      && xBuffer.Length == FilterSize && yBuffer.Length == FilterSize && zBuffer.Length == FilterSize
      && xBuffer != yBuffer && yBuffer != zBuffer && xBuffer != zBuffer
      && 0 <= count && index == |samples| % FilterSize
      && RingHolds(xBuffer[..], Xs(samples), count)
      && RingHolds(yBuffer[..], Ys(samples), count)
      && RingHolds(zBuffer[..], Zs(samples), count)
    }

    /** The zero-initialised filter. */
    constructor ()
      ensures Valid() && samples == [] && count == 0 && index == 0
      ensures fresh(xBuffer) && fresh(yBuffer) && fresh(zBuffer)
    {
      xBuffer := new real[FilterSize](_ => 0.0);
      yBuffer := new real[FilterSize](_ => 0.0);
      zBuffer := new real[FilterSize](_ => 0.0);
      index, count := 0, 0;
      samples := [];
    }

    /** `gps_filter_add`: write the slot at the current index, advance the
        index modulo 5 and saturate the count at 5. */
    method Add(x: real, y: real, z: real)
      requires Valid()
      modifies this, xBuffer, yBuffer, zBuffer
      ensures Valid() && samples == old(samples) + [Vec3(x, y, z)]
      ensures 0 <= index < FilterSize && count == Min(|samples|, FilterSize)
      ensures xBuffer[..] == old(xBuffer[..])[old(index) := x]
      ensures yBuffer[..] == old(yBuffer[..])[old(index) := y]
      ensures zBuffer[..] == old(zBuffer[..])[old(index) := z]
    {
      ghost var s := samples + [Vec3(x, y, z)];
      ghost var newX, newY, newZ := xBuffer[..][index := x], yBuffer[..][index := y], zBuffer[..][index := z];
      AdvanceCursor(|samples|);
      RingAdd(xBuffer[..], Xs(samples), count, x);
      RingAdd(yBuffer[..], Ys(samples), count, y);
      RingAdd(zBuffer[..], Zs(samples), count, z);
      assert Xs(s) == Xs(samples) + [x];
      assert Ys(s) == Ys(samples) + [y];
      assert Zs(s) == Zs(samples) + [z];
      assert RingHolds(newX, Xs(s), Min(|s|, FilterSize));
      assert RingHolds(newY, Ys(s), Min(|s|, FilterSize));
      assert RingHolds(newZ, Zs(s), Min(|s|, FilterSize));
      WriteSlot(xBuffer, index, x);
      WriteSlot(yBuffer, index, y);
      WriteSlot(zBuffer, index, z);
      assert xBuffer[..] == newX && yBuffer[..] == newY && zBuffer[..] == newZ;
      index := (index + 1) % FilterSize;
      if count < FilterSize {
        count := count + 1;
      }
      samples := s;
    }

    /** `gps_filter_get_average`: the component-wise mean of slots
        0..count-1, which is the mean of the samples still in the window. */
    method GetAverage() returns (x: real, y: real, z: real)
      requires Valid() && count > 0
      ensures Vec3(x, y, z) == RecentMean(samples)
    {
      var sumX, sumY, sumZ := 0.0, 0.0, 0.0;
      var i := 0;
      while i < count
        invariant 0 <= i <= count
        invariant sumX == Sum(xBuffer[..i]) && sumY == Sum(yBuffer[..i]) && sumZ == Sum(zBuffer[..i])
      {
        assert xBuffer[..i + 1][..i] == xBuffer[..i];
        assert yBuffer[..i + 1][..i] == yBuffer[..i];
        assert zBuffer[..i + 1][..i] == zBuffer[..i];
        sumX := sumX + xBuffer[i];
        sumY := sumY + yBuffer[i];
        sumZ := sumZ + zBuffer[i];
        i := i + 1;
      }
      WindowSums();
      x := sumX / count as real;
      y := sumY / count as real;
      z := sumZ / count as real;
    }

    /** The filled slots sum to the samples still in the window. */
    lemma WindowSums()
      requires Valid()
      ensures Sum(xBuffer[..count]) == Sum(Xs(Recent(samples)))
      ensures Sum(yBuffer[..count]) == Sum(Ys(Recent(samples)))
      ensures Sum(zBuffer[..count]) == Sum(Zs(Recent(samples)))
    {
      var n := |samples|;
      var xs, ys, zs := Xs(samples), Ys(samples), Zs(samples);
      SlotSums(xBuffer[..], xs, count);
      SlotSums(yBuffer[..], ys, count);
      SlotSums(zBuffer[..], zs, count);
      assert xBuffer[..][..count] == xBuffer[..count];
      assert yBuffer[..][..count] == yBuffer[..count];
      assert zBuffer[..][..count] == zBuffer[..count];
      assert xs[n - count..] == Xs(Recent(samples));
      assert ys[n - count..] == Ys(Recent(samples));
      assert zs[n - count..] == Zs(Recent(samples));
    }
  }
}
