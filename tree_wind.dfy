/**
 * The wind sway of the tree in `animate` (js/tree.js): a traversal that
 * gives every branch group below the trunk its recorded rest rotation plus
 * a wind term. The wind term depends on the group's local position, the
 * wind strength and the sine and cosine of the scaled wind time, never on
 * the rotation the group had in the previous frame.
 */
module TreeWind {
  import opened Numeric
  import opened SceneTypes
  import opened TreeShape

  /** `Math.min(1, height / 15)`. */
  function HeightFactor(height: real): (r: real)
    ensures r <= 1.0
    ensures 0.0 <= height ==> 0.0 <= r
  {
    Attenuation(height, 15.0)
  }

  /** `Math.min(1, sqrt(x*x + z*z) / 10)` on the group's local position. */
  function DistanceFactor(p: Vec3, m: MathFns): (r: real)
    ensures r <= 1.0
    ensures SqrtOk(m) ==> 0.0 <= r
  {
    var x := p.x * p.x + p.z * p.z;
    assert 0.0 <= x by { SquareNonNegative(p.x); SquareNonNegative(p.z); }
    Attenuation(m.sqrt(x), 10.0)
  }

  /** `sinTime * windStrength * heightFactor * distanceFactor` for a group at local position `p`. */
  function WindEffect(sinTime: real, windStrength: real, p: Vec3, m: MathFns): real
  {
    sinTime * windStrength * HeightFactor(p.y) * DistanceFactor(p, m)
  }

  /** The rotation set from the rest rotation: the wind term on x, the rest value on y, the wind term times `cosTime` on z. */
  function SwayRotation(rest: Euler, effect: real, cosTime: real): Euler
  {
    Euler(rest.x + effect, rest.y, rest.z + cosTime * effect)
  }

  /**
   * The traversal with the frame's `sinTime` and `cosTime`: the trunk group
   * (level 0) keeps its rotation, every other group gets its rest rotation
   * swayed, and nothing but the live rotations changes.
   */
  function Swayed(b: Branch, sinTime: real, cosTime: real, windStrength: real, m: MathFns): (r: Branch)
    ensures r.level == b.level && r.position == b.position && r.rest == b.rest
    ensures r.length == b.length && r.thickness == b.thickness && r.leaves == b.leaves
    ensures r.geometry == b.geometry && r.material == b.material
    ensures r.meshPosition == b.meshPosition && r.meshRotation == b.meshRotation
    ensures |r.children| == |b.children|
    ensures b.level == 0 ==> r.rotation == b.rotation
    ensures b.level > 0 ==> r.rotation.y == b.rest.y
    decreases b
  {
    var rotation := if b.level == 0 then b.rotation
                    else SwayRotation(b.rest, WindEffect(sinTime, windStrength, b.position, m), cosTime);
    b.(rotation := rotation,
       children := seq(|b.children|, i requires 0 <= i < |b.children| => Swayed(b.children[i], sinTime, cosTime, windStrength, m)))
  }

  /** One frame of the traversal at wind time `windTime`: the angle is `windTime * 0.8`. */
  function SwayTree(b: Branch, windTime: real, windStrength: real, m: MathFns): Branch
  {
    var t := windTime * 0.8;
    Swayed(b, m.sin(t), m.cos(t), windStrength, m)
  }

  /** Every group below the trunk is at its rest rotation. */
  ghost predicate AtRest(b: Branch)
  {
    && (b.level > 0 ==> b.rotation == b.rest)
    && (forall i :: 0 <= i < |b.children| ==> AtRest(b.children[i]))
  }

  /** The tree with every group below the trunk turned back to its rest rotation. */
  function Rested(b: Branch): Branch
    decreases b
  {
    b.(rotation := if b.level == 0 then b.rotation else b.rest,
       children := seq(|b.children|, i requires 0 <= i < |b.children| => Rested(b.children[i])))
  }

  /**
   * The live pose depends only on the rest pose and the current frame: the
   * pose left by any earlier frame is overwritten, so animating twice with
   * the same inputs gives the same tree as animating once.
   */
  lemma {:induction false} SwayForgetsPreviousFrame(b: Branch, s1: real, c1: real, w1: real,
                                                    s2: real, c2: real, w2: real, m: MathFns)
    ensures Swayed(Swayed(b, s1, c1, w1, m), s2, c2, w2, m) == Swayed(b, s2, c2, w2, m)
    decreases b
  {
    var once := Swayed(b, s1, c1, w1, m);
    var twice := Swayed(once, s2, c2, w2, m);
    var direct := Swayed(b, s2, c2, w2, m);
    forall i | 0 <= i < |b.children|
      ensures twice.children[i] == direct.children[i]
    {
      SwayForgetsPreviousFrame(b.children[i], s1, c1, w1, s2, c2, w2, m);
    }
    assert twice.children == direct.children;
  }

  /** The traversal is idempotent for a fixed frame. */
  lemma SwayIdempotent(b: Branch, windTime: real, windStrength: real, m: MathFns)
    ensures SwayTree(SwayTree(b, windTime, windStrength, m), windTime, windStrength, m)
         == SwayTree(b, windTime, windStrength, m)
  {
    var t := windTime * 0.8;
    SwayForgetsPreviousFrame(b, m.sin(t), m.cos(t), windStrength, m.sin(t), m.cos(t), windStrength, m);
  }

  /** Swaying leaves the rest pose and everything else but the live rotations unchanged, at every depth. */
  lemma {:induction false} SwayKeepsRestPose(b: Branch, s: real, c: real, w: real, m: MathFns)
    ensures Rested(Swayed(b, s, c, w, m)) == Rested(b)
    decreases b
  {
    var l := Rested(Swayed(b, s, c, w, m));
    var r := Rested(b);
    forall i | 0 <= i < |b.children|
      ensures l.children[i] == r.children[i]
    {
      SwayKeepsRestPose(b.children[i], s, c, w, m);
    }
    assert l.children == r.children;
  }

  /** The rest pose is a fixed point of turning back to rest exactly when the tree is at rest. */
  lemma {:induction false} RestedAtRest(b: Branch)
    ensures Rested(b) == b <==> AtRest(b)
    decreases b
  {
    var r := Rested(b);
    forall i | 0 <= i < |b.children|
      ensures r.children[i] == b.children[i] <==> AtRest(b.children[i])
    {
      RestedAtRest(b.children[i]);
    }
    if AtRest(b) {
      assert r.children == b.children;
    } else if b.level > 0 && b.rotation != b.rest {
      assert r.rotation != b.rotation;
    } else {
      var i :| 0 <= i < |b.children| && !AtRest(b.children[i]);
      assert r.children[i] != b.children[i];
    }
  }

  /** With no wind every group below the trunk is at its rest rotation, whatever the frame. */
  lemma {:induction false} CalmIsRest(b: Branch, s: real, c: real, m: MathFns)
    ensures Swayed(b, s, c, 0.0, m) == Rested(b)
    decreases b
  {
    var l := Swayed(b, s, c, 0.0, m);
    var r := Rested(b);
    forall i | 0 <= i < |b.children|
      ensures l.children[i] == r.children[i]
    {
      CalmIsRest(b.children[i], s, c, m);
    }
    assert l.children == r.children;
    if b.level > 0 {
      assert WindEffect(s, 0.0, b.position, m) == 0.0;
    }
  }

  /** Every group lies on its parent's axis: local x and z are zero. */
  ghost predicate OnAxis(b: Branch)
  {
    && b.position.x == 0.0 && b.position.z == 0.0
    && (forall i :: 0 <= i < |b.children| ==> OnAxis(b.children[i]))
  }

  /** A tree whose groups sit on their parents' axes feels no wind: its distance factors are all 0. */
  lemma {:induction false} OnAxisFeelsNoWind(b: Branch, s: real, c: real, w: real, m: MathFns)
    requires SqrtOk(m) && OnAxis(b)
    ensures Swayed(b, s, c, w, m) == Rested(b)
    decreases b
  {
    var l := Swayed(b, s, c, w, m);
    var r := Rested(b);
    forall i | 0 <= i < |b.children|
      ensures l.children[i] == r.children[i]
    {
      OnAxisFeelsNoWind(b.children[i], s, c, w, m);
    }
    assert l.children == r.children;
    if b.level > 0 {
      NoWindOnAxis(s, w, b.position, m);
    }
  }

  /** A group on its parent's axis has distance factor 0, so its wind term is 0. */
  lemma NoWindOnAxis(s: real, w: real, p: Vec3, m: MathFns)
    requires SqrtOk(m) && p.x == 0.0 && p.z == 0.0
    ensures WindEffect(s, w, p, m) == 0.0
  {
    assert p.x * p.x + p.z * p.z == 0.0;
    SqrtZero(m);
    assert DistanceFactor(p, m) == 0.0;
  }

  /** Every group a grown tree holds below its root sits on its parent's axis at its rest rotation. */
  lemma {:induction false} GrownOnAxis(b: Branch, maxLevels: int)
    requires Grown(b, maxLevels) && b.position.x == 0.0 && b.position.z == 0.0
    requires b.level > 0 ==> b.rotation == b.rest
    ensures OnAxis(b) && AtRest(b)
    decreases b
  {
    forall i | 0 <= i < |b.children|
      ensures OnAxis(b.children[i]) && AtRest(b.children[i])
    {
      GrownOnAxis(b.children[i], maxLevels);
    }
  }

  /**
   * The tree `createBranch` builds never sways: every sub-branch group is
   * placed at local position (0, parentLength, 0), so its distance from the
   * axis is 0 and its wind effect is 0 for every wind time and strength.
   */
  lemma BuiltTreeNeverSways(length: real, thickness: real, level: nat, maxLevels: int, d: Draws, k: nat,
                            windTime: real, windStrength: real, m: MathFns)
    requires Unit(d) && SqrtOk(m)
    ensures var t := Build(length, thickness, level, maxLevels, d, k).0;
      SwayTree(t, windTime, windStrength, m) == t
  {
    var t := Build(length, thickness, level, maxLevels, d, k).0;
    BuildGrown(length, thickness, level, maxLevels, d, k);
    GrownOnAxis(t, maxLevels);
    var a := windTime * 0.8;
    OnAxisFeelsNoWind(t, m.sin(a), m.cos(a), windStrength, m);
    RestedAtRest(t);
  }

  /**
   * The factors lie in [0,1] for a group at non-negative height, so the
   * wind term has the sign of `sinTime * windStrength` and is never larger
   * in magnitude.
   */
  lemma WindEffectBounded(sinTime: real, windStrength: real, p: Vec3, m: MathFns)
    requires SqrtOk(m) && 0.0 <= p.y
    ensures 0.0 <= sinTime * windStrength ==> 0.0 <= WindEffect(sinTime, windStrength, p, m) <= sinTime * windStrength
    ensures sinTime * windStrength < 0.0 ==> sinTime * windStrength <= WindEffect(sinTime, windStrength, p, m) <= 0.0
  {
    var a, h, g := sinTime * windStrength, HeightFactor(p.y), DistanceFactor(p, m);
    assert WindEffect(sinTime, windStrength, p, m) == a * h * g;
    ScaledTwice(a, h, g);
  }

  /** Scaling twice by factors in [0,1] keeps the sign and does not grow the magnitude. */
  lemma ScaledTwice(a: real, h: real, g: real)
    requires 0.0 <= h <= 1.0 && 0.0 <= g <= 1.0
    ensures 0.0 <= a ==> 0.0 <= a * h * g <= a
    ensures a <= 0.0 ==> a <= a * h * g <= 0.0
  {
    ScaledWithin(a, h);
    ScaledWithin(a * h, g);
  }

  /** Scaling by a factor in [0,1] keeps the sign and does not grow the magnitude. */
  lemma ScaledWithin(a: real, f: real)
    requires 0.0 <= f <= 1.0
    ensures 0.0 <= a ==> 0.0 <= a * f <= a
    ensures a <= 0.0 ==> a <= a * f <= 0.0
  {
    if 0.0 <= a {
      MulLeft(a, f, 1.0);
      MulLeft(a, 0.0, f);
      assert a * f <= a;
      if a == 0.0 {
        assert a * f == 0.0;
      }
    } else {
      MulLeft(-a, f, 1.0);
      MulLeft(-a, 0.0, f);
      assert (-a) * f == -(a * f);
      assert (-a) * f <= -a;
    }
  }
}
