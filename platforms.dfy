/** The platform generator shared by both versions (`prepare_jump`): each new box is
    one random interval away from the previous one, along +x or along -z. */
module Platforms {
  import opened Geometry

  const MIN_INTERVAL: real := 5.0
  const MAX_INTERVAL: real := 10.0

  /** The first entry of `box_translate_queue`. */
  const ORIGIN: Pos := Pos(0.0, 0.0)

  /** `getRandomInt(min, max)`, where `u` is the value `Math.random()` returned, in
      [0, 1). Despite its name the result is not rounded. */
  function GetRandomInt(min: real, max: real, u: real): real
    requires 0.0 <= u < 1.0
  {
    u * (max - min) + min
  }

  /** The box after `cur` when the hop is `interval` long: along +x when `xAxis`,
      otherwise along -z. */
  function NextPlatform(cur: Pos, interval: real, xAxis: bool): (p: Pos)
    ensures xAxis ==> p.z == cur.z && p.x - cur.x == interval
    ensures !xAxis ==> p.x == cur.x && cur.z - p.z == interval
  {
    if xAxis then Pos(cur.x + interval, cur.z) else Pos(cur.x, cur.z - interval)
  }

  /** `b` lies one admissible interval after `a` along +x. */
  predicate XHop(a: Pos, b: Pos)
  {
    b.z == a.z && MIN_INTERVAL <= b.x - a.x < MAX_INTERVAL
  }

  /** `b` lies one admissible interval after `a` along -z. */
  predicate ZHop(a: Pos, b: Pos)
  {
    b.x == a.x && MIN_INTERVAL <= a.z - b.z < MAX_INTERVAL
  }

  /** Box `i + 1` of `q` is one hop after box `i`. */
  predicate HopAt(q: seq<Pos>, i: nat)
    requires i + 1 < |q|
  {
    XHop(q[i], q[i + 1]) || ZHop(q[i], q[i + 1])
  }

  /** A box queue the generator can produce: it starts at the origin, the first hop
      is along x, and every later hop is one interval along exactly one axis. */
  ghost predicate WellFormed(q: seq<Pos>)
  {
    && |q| >= 1
    && q[0] == ORIGIN
    && (|q| >= 2 ==> XHop(q[0], q[1]))
    && forall i: nat :: i + 1 < |q| ==> HopAt(q, i)
  }

  /** A generator state that agrees with queue `q`: the cursor is its last box, the
      active pair is its last two boxes, one hop apart along x exactly when `xAxis`. */
  ghost predicate GeneratorState(q: seq<Pos>, cursor: Pos, first: Pos, second: Pos, xAxis: bool)
  {
    && WellFormed(q)
    && |q| >= 2
    && q[|q| - 1] == cursor
    && first == q[|q| - 2]
    && second == q[|q| - 1]
    && (xAxis <==> XHop(first, second))
  }

  /** How far a box lies along the generator's path: every hop raises x or lowers z. */
  function Progress(p: Pos): real
  {
    p.x - p.z
  }

  /** With the scene's bounds the drawn interval lies in [5, 10). */
  lemma GetRandomIntInRange(u: real)
    requires 0.0 <= u < 1.0
    ensures MIN_INTERVAL <= GetRandomInt(MIN_INTERVAL, MAX_INTERVAL, u) < MAX_INTERVAL
  {
  }

  /** A drawn interval moves exactly one coordinate, in the chosen direction, and
      the two kinds of hop exclude each other. */
  lemma NextPlatformHops(cur: Pos, interval: real, xAxis: bool)
    requires MIN_INTERVAL <= interval < MAX_INTERVAL
    ensures xAxis ==> XHop(cur, NextPlatform(cur, interval, xAxis))
    ensures !xAxis ==> ZHop(cur, NextPlatform(cur, interval, xAxis))
    ensures XHop(cur, NextPlatform(cur, interval, xAxis)) <==> xAxis
  {
  }

  /** Appending a hop from the last box keeps the queue well formed, provided the
      very first hop is along x. */
  lemma AppendKeepsWellFormed(q: seq<Pos>, n: Pos)
    requires WellFormed(q)
    requires XHop(q[|q| - 1], n) || (|q| >= 2 && ZHop(q[|q| - 1], n))
    ensures WellFormed(q + [n])
  {
    var q' := q + [n];
    forall i: nat | i + 1 < |q'|
      ensures HopAt(q', i)
    {
      if i + 1 < |q| {
        assert HopAt(q, i);
        assert q'[i] == q[i] && q'[i + 1] == q[i + 1];
      } else {
        assert q'[i] == q[|q| - 1] && q'[i + 1] == n;
      }
    }
  }

  /** Boxes only move away: later boxes have x no smaller and z no larger, and a
      later box is at least `MIN_INTERVAL` further along than an earlier one. */
  lemma {:induction false} PlatformsMoveAway(q: seq<Pos>, i: nat, j: nat)
    requires WellFormed(q)
    requires i <= j < |q|
    ensures q[i].x <= q[j].x && q[j].z <= q[i].z
    ensures i < j ==> Progress(q[i]) + MIN_INTERVAL <= Progress(q[j])
    decreases j - i
  {
    if i < j {
      PlatformsMoveAway(q, i, j - 1);
      assert HopAt(q, j - 1);
    }
  }

  /** No two boxes of a well-formed queue coincide. */
  lemma PlatformsDistinct(q: seq<Pos>, i: nat, j: nat)
    requires WellFormed(q)
    requires i < j < |q|
    ensures q[i] != q[j]
  {
    PlatformsMoveAway(q, i, j);
  }

  /** Every box of a well-formed queue lies in the quadrant x >= 0, z <= 0. */
  lemma PlatformsInQuadrant(q: seq<Pos>, j: nat)
    requires WellFormed(q)
    requires j < |q|
    ensures q[j].x >= 0.0 && q[j].z <= 0.0
  {
    PlatformsMoveAway(q, 0, j);
  }
}
