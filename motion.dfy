/** The arithmetic the canvas backgrounds share: the bounce and wrap rules
    for one axis of a moving point, the distance-to-alpha rule for the lines
    between close points, the pairs those lines are drawn for, and the
    number of turns of a `for (let i = 0; i < count; i++)` loop whose bound
    is not a whole number. Coordinates, speeds and opacities are exact
    reals; distances are inputs, as the model has no square root. */
module Motion {

  // ---------------------------------------------------------------------
  // One axis of a moving point

  /** A coordinate and the speed it changes by each frame. */
  datatype Axis = Axis(pos: real, speed: real)

  function Abs(r: real): real { if r < 0.0 then -r else r }

  /** `p.x += p.speedX; if (p.x < 0 || p.x > extent) p.speedX *= -1;`:
      move, then reverse when the new coordinate is outside `[0, extent]`.
      The coordinate itself is never clamped: the point moves by the speed,
      the speed reverses exactly when the new coordinate leaves
      `[0, extent]`, and its size never changes. */
  function Bounce(a: Axis, extent: real): (r: Axis)
    ensures r.pos == a.pos + a.speed
    ensures a.pos + a.speed < 0.0 || a.pos + a.speed > extent ==> r.speed == -a.speed
    ensures 0.0 <= a.pos + a.speed <= extent ==> r.speed == a.speed
    ensures Abs(r.speed) == Abs(a.speed)
  {
    var pos := a.pos + a.speed;
    Axis(pos, if pos < 0.0 || pos > extent then -a.speed else a.speed)
  }

  /** Inside `[0, extent]`, or outside by no more than one step and
      heading back in. */
  predicate NearRange(a: Axis, extent: real) {
    || 0.0 <= a.pos <= extent
    || (a.pos < 0.0 && a.speed > 0.0 && -a.speed <= a.pos)
    || (a.pos > extent && a.speed < 0.0 && a.pos <= extent - a.speed)
  }

  /** A point near the range stays near it after a bounce. */
  lemma BounceKeepsNear(a: Axis, extent: real)
    requires extent >= 0.0 && NearRange(a, extent)
    ensures NearRange(Bounce(a, extent), extent)
  {
  }

  /** Near the range means within one speed-step of it. */
  lemma NearIsWithinOneStep(a: Axis, extent: real)
    requires extent >= 0.0 && NearRange(a, extent)
    ensures -Abs(a.speed) <= a.pos <= extent + Abs(a.speed)
  {
  }

  /** `n` bounce steps in a row. */
  function BounceN(a: Axis, extent: real, n: nat): Axis
    decreases n
  {
    if n == 0 then a else BounceN(Bounce(a, extent), extent, n - 1)
  }

  /** A point that starts inside `[0, extent]` is, after any number of
      frames, within one speed-step of the range and heading back in
      whenever it is outside. */
  lemma {:induction false} BounceForever(a: Axis, extent: real, n: nat)
    requires extent >= 0.0 && NearRange(a, extent)
    ensures NearRange(BounceN(a, extent, n), extent)
    ensures -Abs(a.speed) <= BounceN(a, extent, n).pos <= extent + Abs(a.speed)
    ensures Abs(BounceN(a, extent, n).speed) == Abs(a.speed)
    decreases n
  {
    if n > 0 {
      BounceKeepsNear(a, extent);
      BounceForever(Bounce(a, extent), extent, n - 1);
    } else {
      NearIsWithinOneStep(a, extent);
    }
  }

  /** A point more than one step beyond the range (possible once the range
      shrinks under it) reverses every frame and so never comes back: two
      frames return it to where it was. */
  lemma BounceStuckOutside(a: Axis, extent: real)
    requires a.speed != 0.0 && a.pos > extent + Abs(a.speed)
    ensures Bounce(a, extent).pos > extent
    ensures BounceN(a, extent, 2) == a
  {
    var b := Bounce(a, extent);
    assert BounceN(a, extent, 2) == BounceN(b, extent, 1) == BounceN(Bounce(b, extent), extent, 0);
  }

  /** `p.x += p.speedX; if (p.x > max) p.x = 0; if (p.x < 0) p.x = max;`:
      move, then wrap to the opposite edge. The speed never changes. On a
      canvas of non-negative extent, whatever the speed, a wrap step lands
      inside `[0, extent]`: a move that stays inside is kept as it is, one
      past the far edge restarts at 0 and one past 0 restarts at the far
      edge. */
  function Wrap(a: Axis, extent: real): (r: Axis)
    ensures r.speed == a.speed
    ensures extent >= 0.0 ==> 0.0 <= r.pos <= extent
    ensures 0.0 <= a.pos + a.speed <= extent ==> r.pos == a.pos + a.speed
    ensures extent >= 0.0 && a.pos + a.speed > extent ==> r.pos == 0.0
    ensures extent >= 0.0 && a.pos + a.speed < 0.0 ==> r.pos == extent
  {
    var moved := a.pos + a.speed;
    var pos := if moved > extent then 0.0 else moved;
    Axis(if pos < 0.0 then extent else pos, a.speed)
  }

  // ---------------------------------------------------------------------
  // Connection lines

  /** `base * (1 - distance / threshold)`, the alpha of the line between
      two points closer than the threshold. */
  function LineAlpha(base: real, threshold: real, distance: real): (alpha: real)
    requires threshold > 0.0
    ensures base > 0.0 && 0.0 <= distance < threshold ==> 0.0 < alpha <= base
  {
    var ratio := distance / threshold;
    if 0.0 <= distance < threshold then
      DivBelowOne(distance, threshold);
      base * (1.0 - ratio)
    else
      base * (1.0 - ratio)
  }

  lemma DivBelowOne(a: real, b: real)
    requires 0.0 <= a < b
    ensures 0.0 <= a / b < 1.0
  {
    assert (a / b) * b == a;
  }

  lemma DivMonotone(a: real, c: real, b: real)
    requires b > 0.0 && a <= c
    ensures a / b <= c / b
  {
    assert (c / b - a / b) * b == c - a;
  }

  /** The alpha falls linearly from `base` at distance 0 to nothing at the
      threshold, so a nearer pair never gets a fainter line. */
  lemma LineAlphaFalls(base: real, threshold: real, d1: real, d2: real)
    requires threshold > 0.0 && base > 0.0 && d1 <= d2
    ensures LineAlpha(base, threshold, d1) >= LineAlpha(base, threshold, d2)
    ensures LineAlpha(base, threshold, 0.0) == base
    ensures LineAlpha(base, threshold, threshold) == 0.0
  {
    DivMonotone(d1, d2, threshold);
    var gap := d2 / threshold - d1 / threshold;
    assert LineAlpha(base, threshold, d1) - LineAlpha(base, threshold, d2) == base * gap;
    assert threshold / threshold == 1.0;
  }

  /** A line drawn between points `i` and `j`. */
  datatype Connection = Connection(i: nat, j: nat, alpha: real)

  /** `(i, j)` comes before `(k, l)` in the order of the nested loops. */
  predicate PairBefore(i: nat, j: nat, k: nat, l: nat) {
    i < k || (i == k && j < l)
  }

  /** The lines drawn by
      `for (i = 0; i < n; i++) for (j = i + 1; j < n; j++) if (distance < threshold) ...`:
      one for every pair `i < j` closer than the threshold and no other,
      in loop order, each with the alpha `LineAlpha` gives its distance. */
  method ConnectionLines(n: nat, distance: (nat, nat) -> real, threshold: real, base: real)
    returns (lines: seq<Connection>)
    requires threshold > 0.0
    ensures forall k :: 0 <= k < |lines| ==>
      && lines[k].i < lines[k].j < n
      && distance(lines[k].i, lines[k].j) < threshold
      && lines[k].alpha == LineAlpha(base, threshold, distance(lines[k].i, lines[k].j))
    ensures forall i: nat, j: nat :: i < j < n && distance(i, j) < threshold ==>
      Connection(i, j, LineAlpha(base, threshold, distance(i, j))) in lines
    ensures forall k, m :: 0 <= k < m < |lines| ==> PairBefore(lines[k].i, lines[k].j, lines[m].i, lines[m].j)
  {
    lines := [];
    for i := 0 to n
      invariant forall k :: 0 <= k < |lines| ==>
        && lines[k].i < i && lines[k].i < lines[k].j < n
        && distance(lines[k].i, lines[k].j) < threshold
        && lines[k].alpha == LineAlpha(base, threshold, distance(lines[k].i, lines[k].j))
      invariant forall a: nat, b: nat :: a < i && a < b < n && distance(a, b) < threshold ==>
        Connection(a, b, LineAlpha(base, threshold, distance(a, b))) in lines
      invariant forall k, m :: 0 <= k < m < |lines| ==> PairBefore(lines[k].i, lines[k].j, lines[m].i, lines[m].j)
    {
      for j := i + 1 to n
        invariant forall k :: 0 <= k < |lines| ==>
          && (lines[k].i < i || (lines[k].i == i && lines[k].j < j)) && lines[k].i < lines[k].j < n
          && distance(lines[k].i, lines[k].j) < threshold
          && lines[k].alpha == LineAlpha(base, threshold, distance(lines[k].i, lines[k].j))
        invariant forall a: nat, b: nat :: (a < i || (a == i && b < j)) && a < b < n && distance(a, b) < threshold ==>
          Connection(a, b, LineAlpha(base, threshold, distance(a, b))) in lines
        invariant forall k, m :: 0 <= k < m < |lines| ==> PairBefore(lines[k].i, lines[k].j, lines[m].i, lines[m].j)
      {
        var d := distance(i, j);
        if d < threshold {
          lines := lines + [Connection(i, j, LineAlpha(base, threshold, d))];
        }
      }
    }
  }

  // ---------------------------------------------------------------------
  // Loop counts

  /** How many times `for (let i = 0; i < count; i++)` runs when `count`
      may have a fractional part: the least whole number not below it. */
  function LoopCount(count: real): (n: nat)
    ensures count <= n as real
    ensures n > 0 ==> ((n - 1) as real) < count
  {
    if count <= 0.0 then 0
    else
      var f := count.Floor;
      assert f as real <= count < f as real + 1.0;
      if f as real == count then f else f + 1
  }
}
