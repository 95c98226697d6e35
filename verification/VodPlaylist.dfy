/** The segment arithmetic of a VOD playlist, in exact numbers: 10,000,000 ticks are one second. */
module VodPlaylist {

  const TICKS := 10000000
  /** A last piece of up to a tenth of a second is not worth a segment. */
  const SHORTEST := 1000000

  /** A listed segment: where it starts and how long it is, in ticks. */
  datatype Segment = Segment(start: int, length: int)

  /** Go's conversion of a number to int: towards zero. */
  function Truncate(x: real): int {
    if x >= 0.0 then x.Floor else -(-x).Floor
  }

  function Ceil(x: real): int {
    -((-x).Floor)
  }

  function Total(segs: seq<Segment>): int {
    if segs == [] then 0 else Total(segs[..|segs| - 1]) + segs[|segs| - 1].length
  }

  ghost predicate Contiguous(segs: seq<Segment>) {
    && (segs != [] ==> segs[0].start == 0)
    && forall i | 0 <= i < |segs| - 1 :: segs[i].start + segs[i].length == segs[i + 1].start
  }

  /** The whole segments of a duration and what is left over, in ticks. */
  function Whole(duration: int, segLen: int): int
    requires segLen > 0
  {
    if duration >= 0 then duration / (segLen * TICKS) else -(-duration / (segLen * TICKS))
  }

  function LeftOver(duration: int, segLen: int): int
    requires segLen > 0
  {
    duration - Whole(duration, segLen) * (segLen * TICKS)
  }

  lemma QuotientFloor(a: nat, b: nat)
    requires b > 0
    ensures (a as real / b as real).Floor == a / b
  {
    var q, r := a / b, a % b;
    assert a == q * b + r;
    var x := a as real / b as real;
    assert x * b as real == a as real;
    assert (q * b) as real == q as real * b as real;
    assert (x - q as real) * b as real == r as real;
    assert x - q as real < 0.0 ==> (x - q as real) * b as real < 0.0;
    assert x - q as real >= 1.0 ==> (x - q as real) * b as real >= b as real;
  }

  lemma Ratio(duration: int, segLen: int)
    requires segLen > 0
    ensures duration as real / 10000000.0 / segLen as real == duration as real / (segLen * TICKS) as real
  {
    var x := duration as real / 10000000.0 / segLen as real;
    assert x * segLen as real == duration as real / 10000000.0;
    assert x * segLen as real * 10000000.0 == duration as real;
    assert (segLen * TICKS) as real == segLen as real * 10000000.0;
    assert x * (segLen * TICKS) as real == duration as real;
    SameQuotient(x, duration as real, (segLen * TICKS) as real);
  }

  lemma SameQuotient(x: real, a: real, b: real)
    requires b > 0.0 && x * b == a
    ensures x == a / b
  {
  }

  /** The number of whole segments as the source computes it. */
  lemma WholeExact(duration: int, segLen: int)
    requires segLen > 0
    ensures Truncate(duration as real / 10000000.0 / segLen as real) == Whole(duration, segLen)
  {
    Ratio(duration, segLen);
    var unit := segLen * TICKS;
    if duration >= 0 {
      QuotientFloor(duration, unit);
    } else {
      QuotientFloor(-duration, unit);
      var x := duration as real / unit as real;
      assert (-x) * unit as real == (-duration) as real by {
        assert x * unit as real == duration as real;
      }
      SameQuotient(-x, (-duration) as real, unit as real);
    }
  }

  /** The remainder as the source computes it, in ticks. */
  lemma LeftOverExact(duration: int, segLen: int)
    requires segLen > 0
    ensures (duration as real / 10000000.0 - Whole(duration, segLen) as real * segLen as real) * 10000000.0
            == LeftOver(duration, segLen) as real
  {
    var w := Whole(duration, segLen);
    assert (w * (segLen * TICKS)) as real == w as real * (segLen * TICKS) as real;
    assert (segLen * TICKS) as real == segLen as real * 10000000.0;
    Spread(duration as real / 10000000.0, w as real, segLen as real);
  }

  lemma Spread(a: real, w: real, l: real)
    ensures (a - w * l) * 10000000.0 == a * 10000000.0 - w * (l * 10000000.0)
  {
    assert w * l * 10000000.0 == w * (l * 10000000.0);
  }

  lemma LeftOverRange(duration: int, segLen: int)
    requires segLen > 0
    ensures duration >= 0 ==> 0 <= Whole(duration, segLen) && 0 <= LeftOver(duration, segLen) < segLen * TICKS
    ensures duration < 0 ==> Whole(duration, segLen) <= 0 && LeftOver(duration, segLen) <= 0
  {
    var unit := segLen * TICKS;
    if duration >= 0 {
      DivFacts(duration, unit);
    } else {
      DivFacts(-duration, unit);
      NegMul(-duration / unit, unit);
    }
  }

  lemma DivFacts(a: nat, b: nat)
    requires b > 0
    ensures 0 <= a / b && a / b * b <= a < a / b * b + b
  {
    assert a == a / b * b + a % b;
  }

  lemma NegMul(a: int, b: int)
    ensures (-a) * b == -(a * b)
  {
  }

  lemma NextMultiple(i: int, unit: int)
    ensures i * unit + unit == (i + 1) * unit
  {
  }

  /** What the playlist lists for a duration in ticks and a segment length in seconds. */
  ghost predicate Lists(segs: seq<Segment>, duration: int, segLen: int)
    requires segLen > 0
  {
    var unit, whole, left := segLen * TICKS, Whole(duration, segLen), LeftOver(duration, segLen);
    && (duration < 0 ==> segs == [])
    && (duration >= 0 ==> |segs| == whole + if left > SHORTEST then 1 else 0)
    && (forall i | 0 <= i < |segs| :: segs[i].start == i * unit && segs[i].length == if i < whole then unit else left)
  }

  lemma TicksOf(seconds: real, ticks: int)
    requires seconds * 10000000.0 == ticks as real
    ensures Truncate(seconds * 10000000.0) == ticks
  {
    assert (-(ticks as real)).Floor == -ticks;
  }

  /** The numbers the list is made from. */
  method Measure(duration: int, segLen: int) returns (numWhole: int, remainder: real, totalSegments: int)
    requires segLen > 0
    ensures numWhole == Whole(duration, segLen)
    ensures remainder * 10000000.0 == LeftOver(duration, segLen) as real
    ensures remainder > 0.1 <==> LeftOver(duration, segLen) > SHORTEST
    ensures totalSegments == numWhole + if LeftOver(duration, segLen) > SHORTEST then 1 else 0
  {
    var totalSecs := duration as real / 10000000.0;
    numWhole := Truncate(totalSecs / segLen as real);
    WholeExact(duration, segLen);
    LeftOverExact(duration, segLen);
    remainder := totalSecs - numWhole as real * segLen as real;
    totalSegments := numWhole;
    if remainder > 0.1 {
      totalSegments := totalSegments + 1;
    }
  }

  method ListSegments(segLen: real, remainder: real, numWhole: int, totalSegments: int, ghost unit: int, ghost left: int)
    returns (segs: seq<Segment>)
    requires segLen * 10000000.0 == unit as real && remainder * 10000000.0 == left as real
    requires totalSegments == numWhole + if remainder > 0.1 then 1 else 0
    ensures |segs| == if totalSegments < 0 then 0 else totalSegments
    ensures forall i | 0 <= i < |segs| :: segs[i].start == i * unit && segs[i].length == if i < numWhole then unit else left
  {
    segs := [];
    var currentTicks := 0;
    var i := 0;
    while i < totalSegments
      invariant 0 <= i == |segs| && (i <= totalSegments || i == 0)
      invariant forall k | 0 <= k < i :: segs[k].start == k * unit && segs[k].length == if k < numWhole then unit else left
      invariant i <= numWhole || i == 0 ==> currentTicks == i * unit
    {
      var dur := segLen;
      if i == totalSegments - 1 && remainder > 0.1 {
        dur := remainder;
      }
      TicksOf(dur, if i < numWhole then unit else left);
      var lengthTicks := Truncate(dur * 10000000.0);
      NextMultiple(i, unit);
      segs := segs + [Segment(currentTicks, lengthTicks)];
      currentTicks := currentTicks + lengthTicks;
      i := i + 1;
    }
  }

  method GenerateVODPlaylist(duration: int, segLen: int) returns (segs: seq<Segment>, targetDuration: int)
    requires segLen > 0
    ensures targetDuration == segLen
    ensures Lists(segs, duration, segLen)
  {
    var numWhole, remainder, totalSegments := Measure(duration, segLen);
    LeftOverRange(duration, segLen);
    targetDuration := Ceil(segLen as real);
    segs := ListSegments(segLen as real, remainder, numWhole, totalSegments, segLen * TICKS, LeftOver(duration, segLen));
  }

  /** For every duration and positive segment length the segments are contiguous from tick 0, none is longer than
      the target duration and none is a splinter, and together they fall short of the duration by at most a tenth of a
      second and never exceed it. */
  lemma PlaylistCovers(segs: seq<Segment>, duration: int, segLen: int)
    requires segLen > 0 && duration >= 0 && Lists(segs, duration, segLen)
    ensures Contiguous(segs)
    ensures forall i | 0 <= i < |segs| :: SHORTEST < segs[i].length <= segLen * TICKS
    ensures duration - SHORTEST <= Total(segs) <= duration
  {
    var unit, whole, left := segLen * TICKS, Whole(duration, segLen), LeftOver(duration, segLen);
    LeftOverRange(duration, segLen);
    forall i | 0 <= i < |segs| - 1 ensures segs[i].start + segs[i].length == segs[i + 1].start {
      NextMultiple(i, unit);
    }
    TotalOf(segs, duration, segLen, |segs|);
    assert segs[..|segs|] == segs;
  }

  lemma {:induction false} TotalOf(segs: seq<Segment>, duration: int, segLen: int, n: nat)
    requires segLen > 0 && duration >= 0 && Lists(segs, duration, segLen) && n <= |segs|
    ensures var unit, whole := segLen * TICKS, Whole(duration, segLen);
            Total(segs[..n]) == if n <= whole then n * unit else whole * unit + LeftOver(duration, segLen)
  {
    LeftOverRange(duration, segLen);
    if n > 0 {
      TotalOf(segs, duration, segLen, n - 1);
      assert segs[..n][..n - 1] == segs[..n - 1];
      NextMultiple(n - 1, segLen * TICKS);
    }
  }
}
