/**
 * The grass field of js/environment.js as values: the rejection sampling
 * of `createGrass` and the per-blade wind update of `animate`.
 *
 * `Field` is the sequence of blades the first `n` turns of the sampling
 * loop push, together with the cursor into the random draws after them;
 * `SwayBlade` is the pose one blade gets in one frame. The `Environment`
 * class is proved to follow them.
 */
module Grass {
  import opened Numeric
  import opened SceneTypes

  /** `numGrassBlades`: the number of turns of the sampling loop. */
  const NUM_GRASS_BLADES: nat := 8000

  /** `radius` of the sampled disc. */
  const FIELD_RADIUS: real := 80.0

  /** Points closer than this to the centre (where the tree stands) are skipped. */
  const CLEARING_RADIUS: real := 3.0

  /** One sampled point: the polar radius and angle and the jittered planar coordinates. */
  datatype Candidate = Candidate(r: real, angle: real, x: real, z: real)

  /**
   * One blade: the live position, rotation and height scale on the mesh,
   * and the rest pose in `userData.initialPosition` and
   * `userData.initialRotation`.
   */
  datatype Blade = Blade(position: Vec3, rotation: Euler, scaleY: real, restPosition: Vec3, restRotation: Euler)

  /** The first four draws of a loop turn: `r = Math.pow(u, 0.5) * 80`, the angle and the two jitters. */
  function Sample(m: MathFns, d: Draws, k: nat): Candidate
  {
    var r := m.sqrt(d(k)) * FIELD_RADIUS;
    var angle := d(k + 1) * TWO_PI;
    Candidate(r, angle, m.cos(angle) * r + (d(k + 2) - 0.5) * 5.0, m.sin(angle) * r + (d(k + 3) - 0.5) * 5.0)
  }

  /** `x * x + z * z`, the squared distance from the centre. */
  function SquaredDistance(x: real, z: real): (r: real)
    ensures 0.0 <= r
  {
    SquareNonNegative(x);
    SquareNonNegative(z);
    x * x + z * z
  }

  /** The acceptance test: a point whose distance from the centre is below 3 is skipped. */
  predicate Accepts(c: Candidate, m: MathFns)
  {
    !(m.sqrt(SquaredDistance(c.x, c.z)) < CLEARING_RADIUS)
  }

  /** The blade pushed for an accepted point, from the next four draws: height, yaw and the two rest tilts. */
  function NewBlade(c: Candidate, d: Draws, k: nat): Blade
  {
    var height := 0.8 + d(k) * 0.4;
    var yaw := d(k + 1) * TWO_PI;
    var position := Vec3(c.x, height / 2.0, c.z);
    Blade(position, Euler(0.0, yaw, 0.0), height, position,
          Euler((d(k + 2) - 0.5) * 0.2, yaw, (d(k + 3) - 0.5) * 0.2))
  }

  /** One turn of the loop on the blades so far and the cursor: sample a point, and push a blade when it is accepted. */
  function Turn(m: MathFns, d: Draws, blades: seq<Blade>, k: nat): (seq<Blade>, nat)
  {
    var c := Sample(m, d, k);
    if Accepts(c, m) then (blades + [NewBlade(c, d, k + 4)], k + 8) else (blades, k + 4)
  }

  /** The blades pushed by the first `n` turns of the loop started at cursor `k`, and the cursor after them. */
  function Field(m: MathFns, d: Draws, k: nat, n: nat): (seq<Blade>, nat)
  {
    if n == 0 then ([], k)
    else
      var prev := Field(m, d, k, n - 1);
      Turn(m, d, prev.0, prev.1)
  }

  /** What the sampling records about a blade, apart from its live pose. */
  ghost predicate RestOk(b: Blade)
  {
    && SquaredDistance(b.restPosition.x, b.restPosition.z) >= CLEARING_RADIUS * CLEARING_RADIUS
    && 0.8 <= b.scaleY < 1.2
    && b.restPosition.y == b.scaleY / 2.0
    && 0.0 <= b.restRotation.y < TWO_PI
    && -0.1 <= b.restRotation.x < 0.1
    && -0.1 <= b.restRotation.z < 0.1
  }

  /** A freshly created blade: the rest facts, live position at rest, live rotation only the yaw. */
  ghost predicate FreshOk(b: Blade)
  {
    && RestOk(b)
    && b.position == b.restPosition
    && b.rotation == Euler(0.0, b.restRotation.y, 0.0)
  }

  /** With a true square root, the acceptance test is `x*x + z*z >= 9`. */
  lemma AcceptsIff(c: Candidate, m: MathFns)
    requires SqrtOk(m)
    ensures Accepts(c, m) <==> c.x * c.x + c.z * c.z >= CLEARING_RADIUS * CLEARING_RADIUS
  {
    SqrtLess(m, SquaredDistance(c.x, c.z), CLEARING_RADIUS);
  }

  /** The sampled point: radius in [0,80), angle in [0,2π), each coordinate within 2.5 of the polar point. */
  lemma SampleNear(m: MathFns, d: Draws, k: nat)
    requires Unit(d) && SqrtOk(m)
    ensures var c := Sample(m, d, k);
      && 0.0 <= c.r < FIELD_RADIUS
      && 0.0 <= c.angle < TWO_PI
      && -2.5 <= c.x - m.cos(c.angle) * c.r < 2.5
      && -2.5 <= c.z - m.sin(c.angle) * c.r < 2.5
  {
    var u := d(k);
    assert 0.0 <= u < 1.0 && 0.0 <= d(k + 1) < 1.0;
    assert 0.0 <= d(k + 2) < 1.0 && 0.0 <= d(k + 3) < 1.0;
    SqrtOfDraw(m, u);
    MulRightStrict(m.sqrt(u), 1.0, FIELD_RADIUS);
    MulRightStrict(d(k + 1), 1.0, TWO_PI);
  }

  /** Every sampled point lies within this distance of the centre: a radius below 80 plus at most 2.5 of jitter on each axis. */
  const FIELD_REACH: real := 85.0

  /** The sampled point lies strictly within `FIELD_REACH` of the centre. */
  lemma SampleInReach(m: MathFns, d: Draws, k: nat)
    requires Unit(d) && SqrtOk(m) && TrigOk(m)
    ensures var c := Sample(m, d, k);
      SquaredDistance(c.x, c.z) < FIELD_REACH * FIELD_REACH
  {
    var c := Sample(m, d, k);
    SampleNear(m, d, k);
    assert m.sin(c.angle) * m.sin(c.angle) + m.cos(c.angle) * m.cos(c.angle) == 1.0;
    PolarJitterBound(c.r, m.cos(c.angle), m.sin(c.angle), c.x, c.z);
  }

  /** A point at polar radius below 80, jittered by less than 2.5 on each axis, lies within 85 of the centre. */
  lemma PolarJitterBound(r: real, co: real, si: real, x: real, z: real)
    requires 0.0 <= r < FIELD_RADIUS && si * si + co * co == 1.0
    requires -2.5 <= x - co * r < 2.5 && -2.5 <= z - si * r < 2.5
    ensures SquaredDistance(x, z) < FIELD_REACH * FIELD_REACH
  {
    var p, q := co * r, si * r;
    OnCircle(co, si, r);
    SquareStrict(r, FIELD_RADIUS);
    SquareWithin(x - p, 2.5);
    SquareWithin(z - q, 2.5);
    JitteredBound(p, q, x - p, z - q);
    assert x == p + (x - p) && z == q + (z - q);
  }

  /** A point at polar radius `r` on the unit circle lies at squared distance `r * r`. */
  lemma OnCircle(co: real, si: real, r: real)
    requires si * si + co * co == 1.0
    ensures (co * r) * (co * r) + (si * r) * (si * r) == r * r
  {
    assert (co * r) * (co * r) + (si * r) * (si * r) == (co * co + si * si) * (r * r);
  }

  /** A point within 80 of the centre moved by at most 2.5 on each axis stays within 85. */
  lemma JitteredBound(p: real, q: real, u: real, w: real)
    requires p * p + q * q < 6400.0 && u * u <= 6.25 && w * w <= 6.25
    ensures (p + u) * (p + u) + (q + w) * (q + w) < 7225.0
  {
    SquareOfSum(p, u);
    SquareOfSum(q, w);
    CrossTerm(p, u);
    CrossTerm(q, w);
  }

  lemma SquareOfSum(a: real, b: real)
    ensures (a + b) * (a + b) == a * a + 2.0 * (a * b) + b * b
  {
  }

  /** `2ab <= a²/10 + 10b²`, because `(a - 10b)²` is not negative. */
  lemma CrossTerm(a: real, b: real)
    ensures 2.0 * (a * b) <= 0.1 * (a * a) + 10.0 * (b * b)
  {
    SquareNonNegative(a - 10.0 * b);
    assert (a - 10.0 * b) * (a - 10.0 * b) == a * a - 20.0 * (a * b) + 100.0 * (b * b);
  }

  /** A blade made from an accepted point satisfies the freshness facts. */
  lemma NewBladeOk(c: Candidate, d: Draws, k: nat, m: MathFns)
    requires Unit(d) && SqrtOk(m) && Accepts(c, m)
    ensures FreshOk(NewBlade(c, d, k))
  {
    AcceptsIff(c, m);
    assert 0.0 <= d(k) < 1.0 && 0.0 <= d(k + 1) < 1.0;
    assert 0.0 <= d(k + 2) < 1.0 && 0.0 <= d(k + 3) < 1.0;
    MulRightStrict(d(k + 1), 1.0, TWO_PI);
  }

  /**
   * After `n` turns there are at most `n` blades, and the cursor has moved
   * 4 draws per rejected and 8 per accepted turn: a rejected point is not
   * retried.
   */
  lemma {:induction false} FieldCount(m: MathFns, d: Draws, k: nat, n: nat)
    ensures |Field(m, d, k, n).0| <= n
    ensures Field(m, d, k, n).1 == k + 4 * n + 4 * |Field(m, d, k, n).0|
  {
    if n > 0 {
      FieldCount(m, d, k, n - 1);
    }
  }

  /** Every blade the loop pushes is created fresh outside the clearing. */
  lemma {:induction false} FieldFresh(m: MathFns, d: Draws, k: nat, n: nat)
    requires Unit(d) && SqrtOk(m)
    ensures forall i :: 0 <= i < |Field(m, d, k, n).0| ==> FreshOk(Field(m, d, k, n).0[i])
  {
    if n > 0 {
      var prev := Field(m, d, k, n - 1);
      FieldFresh(m, d, k, n - 1);
      var c := Sample(m, d, prev.1);
      if Accepts(c, m) {
        NewBladeOk(c, d, prev.1 + 4, m);
        FreshSnoc(prev.0, NewBlade(c, d, prev.1 + 4));
      }
    }
  }

  /** Appending a fresh blade to fresh blades keeps them all fresh. */
  lemma FreshSnoc(blades: seq<Blade>, b: Blade)
    requires forall i :: 0 <= i < |blades| ==> FreshOk(blades[i])
    requires FreshOk(b)
    ensures forall i :: 0 <= i < |blades + [b]| ==> FreshOk((blades + [b])[i])
  {
    assert forall i :: 0 <= i < |blades| ==> (blades + [b])[i] == blades[i];
  }

  /** Blade `b` is the one created for the accepted point sampled at cursor `j`. */
  ghost predicate SampledAt(b: Blade, m: MathFns, d: Draws, j: nat)
  {
    Accepts(Sample(m, d, j), m) && b == NewBlade(Sample(m, d, j), d, j + 4)
  }

  /** The cursor at which one turn started, when its point was accepted. */
  ghost function TurnAccepted(m: MathFns, d: Draws, k: nat): seq<nat>
  {
    if Accepts(Sample(m, d, k), m) then [k] else []
  }

  /** The cursors at which the first `n` turns of the loop sampled a point that was accepted. */
  ghost function AcceptedAt(m: MathFns, d: Draws, k: nat, n: nat): seq<nat>
  {
    if n == 0 then [] else AcceptedAt(m, d, k, n - 1) + TurnAccepted(m, d, Field(m, d, k, n - 1).1)
  }

  /**
   * `blades` are, in order, the blades made from the points sampled at the
   * cursors `cs`: each cursor lies between `start` and `end - 8`, with
   * `start <= end`, and the cursors increase by at least 8 draws from one
   * blade to the next.
   */
  ghost predicate Traced(blades: seq<Blade>, cs: seq<nat>, m: MathFns, d: Draws, start: nat, end: nat)
  {
    && start <= end && |cs| == |blades|
    && (forall i :: 0 <= i < |cs| ==> start <= cs[i] && cs[i] + 8 <= end && SampledAt(blades[i], m, d, cs[i]))
    && (forall i, j :: 0 <= i < j < |cs| ==> cs[i] + 8 <= cs[j])
  }

  /** One turn of the loop keeps the trace, extended by the turn's cursor when its point is accepted. */
  lemma TracedTurn(blades: seq<Blade>, cs: seq<nat>, m: MathFns, d: Draws, start: nat, end: nat)
    requires Traced(blades, cs, m, d, start, end)
    ensures Traced(Turn(m, d, blades, end).0, cs + TurnAccepted(m, d, end), m, d, start, Turn(m, d, blades, end).1)
  {
    if Accepts(Sample(m, d, end), m) {
      TracedSnoc(blades, cs, m, d, start, end);
    } else {
      assert cs + TurnAccepted(m, d, end) == cs;
      TracedLater(blades, cs, m, d, start, end, end + 4);
    }
  }

  /** Appending the blade sampled at the current cursor `end` keeps the trace. */
  lemma TracedSnoc(blades: seq<Blade>, cs: seq<nat>, m: MathFns, d: Draws, start: nat, end: nat)
    requires Traced(blades, cs, m, d, start, end) && Accepts(Sample(m, d, end), m)
    ensures Traced(blades + [NewBlade(Sample(m, d, end), d, end + 4)], cs + [end], m, d, start, end + 8)
  {
    var b := NewBlade(Sample(m, d, end), d, end + 4);
    var blades', cs' := blades + [b], cs + [end];
    assert SampledAt(b, m, d, end);
    forall i | 0 <= i < |cs'|
      ensures start <= cs'[i] && cs'[i] + 8 <= end + 8 && SampledAt(blades'[i], m, d, cs'[i])
    {
      if i < |cs| {
        assert blades'[i] == blades[i] && cs'[i] == cs[i];
      }
    }
    forall i, j | 0 <= i < j < |cs'|
      ensures cs'[i] + 8 <= cs'[j]
    {
      assert cs'[i] == cs[i];
    }
  }

  /** A trace stays one when the final cursor moves on without a blade. */
  lemma TracedLater(blades: seq<Blade>, cs: seq<nat>, m: MathFns, d: Draws, start: nat, end: nat, end': nat)
    requires Traced(blades, cs, m, d, start, end) && end <= end'
    ensures Traced(blades, cs, m, d, start, end')
  {
  }

  /**
   * The blades of the field are, in order, the blades made from the accepted
   * points: blade `i` comes from the point sampled at the `i`-th accepted
   * cursor, and the cursors increase by at least 8 draws from one blade to
   * the next and lie between `k` and the final cursor.
   */
  lemma {:induction false} FieldFromSamples(m: MathFns, d: Draws, k: nat, n: nat)
    ensures Traced(Field(m, d, k, n).0, AcceptedAt(m, d, k, n), m, d, k, Field(m, d, k, n).1)
  {
    if n > 0 {
      FieldFromSamples(m, d, k, n - 1);
      var prev := Field(m, d, k, n - 1);
      TracedTurn(prev.0, AcceptedAt(m, d, k, n - 1), m, d, k, prev.1);
    }
  }

  /**
   * Every blade of the field stands in the ring between the clearing and
   * `FIELD_REACH`: its planar distance from the centre is at least 3 and
   * below 85.
   */
  lemma FieldInReach(m: MathFns, d: Draws, k: nat, n: nat)
    requires Unit(d) && SqrtOk(m) && TrigOk(m)
    ensures var blades := Field(m, d, k, n).0;
      forall i :: 0 <= i < |blades| ==> InRing(blades[i], m)
  {
    var blades, cs := Field(m, d, k, n).0, AcceptedAt(m, d, k, n);
    FieldFromSamples(m, d, k, n);
    forall i | 0 <= i < |blades|
      ensures InRing(blades[i], m)
    {
      SampledInRing(blades[i], m, d, cs[i]);
    }
  }

  /** The blade's rest position is at least 3 and less than 85 away from the centre. */
  ghost predicate InRing(b: Blade, m: MathFns)
  {
    CLEARING_RADIUS <= m.sqrt(SquaredDistance(b.restPosition.x, b.restPosition.z)) < FIELD_REACH
  }

  /** A blade made from an accepted sample stands in the ring. */
  lemma SampledInRing(b: Blade, m: MathFns, d: Draws, j: nat)
    requires Unit(d) && SqrtOk(m) && TrigOk(m) && SampledAt(b, m, d, j)
    ensures InRing(b, m)
  {
    var c := Sample(m, d, j);
    SampleInReach(m, d, j);
    SqrtLess(m, SquaredDistance(c.x, c.z), FIELD_REACH);
  }

  /** `Math.min(1, sqrt(x*x + z*z) / 80)` on the rest position. */
  function GrassDistanceFactor(p: Vec3, m: MathFns): (r: real)
    ensures r <= 1.0
    ensures SqrtOk(m) ==> 0.0 <= r
  {
    Attenuation(m.sqrt(SquaredDistance(p.x, p.z)), FIELD_RADIUS)
  }

  /**
   * The pose `animate` gives a blade in the frame with `sinTime` and
   * `cosTime`: position and rotation are recomputed from the rest pose, and
   * the rest pose and the height scale are kept.
   */
  function SwayBlade(b: Blade, sinTime: real, cosTime: real, windStrength: real, m: MathFns): (r: Blade)
    ensures r.restPosition == b.restPosition && r.restRotation == b.restRotation && r.scaleY == b.scaleY
    ensures r.position.y == b.restPosition.y && r.rotation.y == b.restRotation.y
  {
    var ip, ir := b.restPosition, b.restRotation;
    var factor := GrassDistanceFactor(ip, m);
    var windEffect := sinTime * windStrength * factor;
    var secondaryEffect := cosTime * windStrength * factor * 0.5;
    b.(position := Vec3(ip.x + windEffect * 0.2, ip.y, ip.z + secondaryEffect * 0.2),
       rotation := Euler(ir.x + windEffect, ir.y, ir.z + secondaryEffect))
  }

  /** One frame of `animate` at `time` on every blade: the angle is `time * 0.8`. */
  function SwayField(blades: seq<Blade>, time: real, windStrength: real, m: MathFns): (r: seq<Blade>)
    ensures |r| == |blades|
    ensures forall i :: 0 <= i < |blades| ==> r[i] == SwayBlade(blades[i], m.sin(time * 0.8), m.cos(time * 0.8), windStrength, m)
  {
    seq(|blades|, i requires 0 <= i < |blades| => SwayBlade(blades[i], m.sin(time * 0.8), m.cos(time * 0.8), windStrength, m))
  }

  /** With no wind a blade stands exactly at its rest pose. */
  lemma CalmBlade(b: Blade, sinTime: real, cosTime: real, m: MathFns)
    ensures var r := SwayBlade(b, sinTime, cosTime, 0.0, m);
      r.position == b.restPosition && r.rotation == b.restRotation
  {
  }

  /** The new pose does not depend on the pose of an earlier frame, so repeating a frame changes nothing. */
  lemma SwayBladeForgets(b: Blade, s1: real, c1: real, w1: real, s2: real, c2: real, w2: real, m: MathFns)
    ensures SwayBlade(SwayBlade(b, s1, c1, w1, m), s2, c2, w2, m) == SwayBlade(b, s2, c2, w2, m)
  {
  }

  /** `animate` is idempotent on the whole field and keeps what the sampling recorded. */
  lemma SwayFieldFacts(blades: seq<Blade>, time: real, windStrength: real, m: MathFns)
    ensures SwayField(SwayField(blades, time, windStrength, m), time, windStrength, m) == SwayField(blades, time, windStrength, m)
    ensures forall i :: 0 <= i < |blades| && RestOk(blades[i]) ==> RestOk(SwayField(blades, time, windStrength, m)[i])
  {
    var once := SwayField(blades, time, windStrength, m);
    var twice := SwayField(once, time, windStrength, m);
    forall i | 0 <= i < |blades|
      ensures twice[i] == once[i]
    {
      SwayBladeForgets(blades[i], m.sin(time * 0.8), m.cos(time * 0.8), windStrength,
                       m.sin(time * 0.8), m.cos(time * 0.8), windStrength, m);
    }
  }
}
