/**
 * The root cluster `createRoot` builds at the trunk base (js/tree.js):
 * five meshes sharing one cylinder and one material, spaced evenly around
 * the trunk at half the given radius, each with a small random tilt.
 */
module TreeRoots {
  import opened Numeric
  import opened SceneTypes

  const ROOT_COUNT: nat := 5
  const ROOT_COLOR: nat := 0x3d2316

  /** The azimuth between neighbouring roots. */
  const ROOT_ANGLE_STEP: real := (PI * 2.0) / 5.0

  /** One root mesh: its shared geometry and material, its position and its rotation. */
  datatype Root = Root(geometry: Cylinder, material: Material, position: Vec3, rotation: Euler)

  /** The azimuth of root `i`. */
  function RootAngle(i: nat): real
  {
    i as real * ROOT_ANGLE_STEP
  }

  /** Root `i` of the cluster, whose two tilt draws are at `k` (x) and `k + 1` (z). */
  function RootAt(radius: real, height: real, i: nat, m: MathFns, d: Draws, k: nat): Root
  {
    Root(Cylinder(radius * 0.3, radius * 0.8, height, 8),
         Standard(ROOT_COLOR, 1.0, 0.0),
         Vec3(m.cos(RootAngle(i)) * radius * 0.5, height / 2.0, m.sin(RootAngle(i)) * radius * 0.5),
         Euler(d(k) * 0.2, 0.0, d(k + 1) * 0.2))
  }

  /** `roots` is the cluster `createRoot(radius, height)` builds from the draws at `k`: root `i` reads draws `k + 2i` and `k + 2i + 1`. */
  ghost predicate RootsFrom(roots: seq<Root>, radius: real, height: real, m: MathFns, d: Draws, k: nat)
  {
    && |roots| == ROOT_COUNT
    && forall i :: 0 <= i < |roots| ==> roots[i] == RootAt(radius, height, i, m, d, k + 2 * i)
  }

  /**
   * `createRoot(radius, height)` with its random draws starting at `k`: the
   * five roots of `RootsFrom`, after which the cursor has moved past their
   * ten tilt draws.
   */
  method CreateRoot(radius: real, height: real, m: MathFns, d: Draws, k: nat) returns (roots: seq<Root>, next: nat)
    ensures RootsFrom(roots, radius, height, m, d, k)
    ensures next == k + 2 * ROOT_COUNT
  {
    var rootGeometry := Cylinder(radius * 0.3, radius * 0.8, height, 8);
    var rootMaterial := Standard(ROOT_COLOR, 1.0, 0.0);
    var angleStep := (PI * 2.0) / 5.0;
    roots := [];
    next := k;
    for i := 0 to ROOT_COUNT
      invariant |roots| == i && next == k + 2 * i
      invariant forall j :: 0 <= j < i ==> roots[j] == RootAt(radius, height, j, m, d, k + 2 * j)
    {
      var angle := i as real * angleStep;
      var position := Vec3(m.cos(angle) * radius * 0.5, height / 2.0, m.sin(angle) * radius * 0.5);
      var tiltX := d(next) * 0.2;
      var tiltZ := d(next + 1) * 0.2;
      roots := roots + [Root(rootGeometry, rootMaterial, position, Euler(tiltX, 0.0, tiltZ))];
      next := next + 2;
    }
  }

  /**
   * The cluster's layout: exactly five roots, root `i` at azimuth
   * `i * 2π/5` and half the radius out, all sharing one geometry and one
   * material, each tilted by less than 0.2 on x and z and not at all on y.
   */
  lemma RootsLayout(roots: seq<Root>, radius: real, height: real, m: MathFns, d: Draws, k: nat)
    requires Unit(d) && RootsFrom(roots, radius, height, m, d, k)
    ensures |roots| == 5
    ensures forall i :: 0 <= i < |roots| ==>
      roots[i].geometry == roots[0].geometry && roots[i].material == roots[0].material
    ensures forall i :: 0 <= i < |roots| ==>
      roots[i].position == Vec3(m.cos(i as real * ROOT_ANGLE_STEP) * radius * 0.5, height / 2.0,
                                m.sin(i as real * ROOT_ANGLE_STEP) * radius * 0.5)
    ensures forall i :: 0 <= i < |roots| ==>
      0.0 <= roots[i].rotation.x < 0.2 && roots[i].rotation.y == 0.0 && 0.0 <= roots[i].rotation.z < 0.2
  {
  }

  /** On the unit circle every root sits at distance `radius * 0.5` from the trunk axis. */
  lemma RootOffset(radius: real, height: real, i: nat, m: MathFns, d: Draws, k: nat)
    requires TrigOk(m)
    ensures var p := RootAt(radius, height, i, m, d, k).position;
      p.x * p.x + p.z * p.z == (radius * 0.5) * (radius * 0.5)
  {
    var c, s, h := m.cos(RootAngle(i)), m.sin(RootAngle(i)), radius * 0.5;
    assert s * s + c * c == 1.0;
    assert c * radius * 0.5 == c * h && s * radius * 0.5 == s * h;
    assert (c * h) * (c * h) + (s * h) * (s * h) == (c * c + s * s) * (h * h);
  }
}
