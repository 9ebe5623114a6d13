/**
 * The shape of the procedural tree built by `createBranch` in js/tree.js.
 *
 * `Build` is the recursion on the nesting level: it reads `Math.random`
 * through the cursor `k` in exactly the order the source calls it and
 * returns the branch group together with the cursor after its last draw.
 * `Grown` is the invariant every group of a built tree satisfies; the
 * lemmas below derive the tree's depth, node count, leaf count, where the
 * leaves go and how few geometries it needs.
 */
module TreeShape {
  import opened Numeric
  import opened SceneTypes

  /** One leaf billboard: the spherical angles of its offset from the branch tip, the offset's length and its uniform scale. */
  datatype Leaf = Leaf(phi: real, theta: real, distance: real, size: real)

  /**
   * A branch group: the group's own position and rotation (set by the
   * parent), the rest rotation recorded in `userData.initialRotation`, the
   * cylinder mesh it holds (shared geometry and material, local offset and
   * tilt), its leaf cluster and its sub-branch groups.
   */
  datatype Branch = Branch(
    level: nat,
    length: real,
    thickness: real,
    geometry: Cylinder,
    material: Material,
    meshPosition: Vec3,
    meshRotation: Euler,
    position: Vec3,
    rotation: Euler,
    rest: Euler,
    leaves: seq<Leaf>,
    children: seq<Branch>)

  const TRUNK_COLOR: nat := 0x3d2316
  const BRANCH_COLOR: nat := 0x4d2926
  const LEAF_COLOR: nat := 0x2d5a27
  const LEAVES_PER_CLUSTER: nat := 8
  const THICKNESS_RATIO: real := 0.65

  /** The cylinder shared by all branches of the same length and thickness. */
  function BranchGeometry(length: real, thickness: real): Cylinder
  {
    Cylinder(thickness * 0.7, thickness, length, 8)
  }

  /** The material cache key: the trunk has its own material, every other level shares one. */
  function MaterialKey(level: nat): (key: string)
    ensures key == "trunk" <==> level == 0
    ensures key in {"trunk", "branch"}
  {
    if level == 0 then "trunk" else "branch"
  }

  /** The material created for a cache key. */
  function RoleMaterial(key: string): Material
  {
    Standard(if key == "trunk" then TRUNK_COLOR else BRANCH_COLOR, 1.0, 0.0)
  }

  /** The shared leaf geometry and material, created on the first leaf cluster. */
  const LeafGeometry: Sphere := Sphere(1.0, 8, 8)
  const LeafMaterial: Material := Standard(LEAF_COLOR, 0.8, 0.1)

  function NumBranches(level: nat): nat
  {
    if level == 0 then 6 else 4
  }

  function LengthRatio(level: nat): real
  {
    if level == 0 then 0.8 else 0.75
  }

  function Spread(level: nat): real
  {
    if level == 0 then 0.6 else 0.9
  }

  /** A group carries a leaf cluster when its level is within one of the maximum. */
  predicate HasLeaves(level: nat, maxLevels: int)
  {
    level > maxLevels - 2
  }

  /** The azimuth between neighbouring sub-branches of a group at `level`. */
  function AngleStep(level: nat): real
  {
    TWO_PI / NumBranches(level) as real
  }

  /** Leaf `i` of a cluster whose draws start at `k`: azimuth, polar angle, then scale. */
  function MakeLeaf(d: Draws, k: nat, leafSize: real): Leaf
  {
    Leaf(d(k) * PI * 2.0, d(k + 1) * PI, leafSize * 2.0, (0.8 + d(k + 2) * 0.4) * leafSize)
  }

  /** The eight leaves of one cluster, three draws each. */
  function Cluster(d: Draws, k: nat, leafSize: real): seq<Leaf>
  {
    seq(LEAVES_PER_CLUSTER, i requires 0 <= i => MakeLeaf(d, k + 3 * i, leafSize))
  }

  /** The random tilt of a non-trunk branch mesh: z is drawn first, then x. */
  function MeshTilt(level: nat, d: Draws, k: nat): (Euler, nat)
  {
    if level > 0 then (Euler((d(k + 1) - 0.5) * 0.2, 0.0, (d(k) - 0.5) * 0.2), k + 2)
    else (NoRotation, k)
  }

  /**
   * What the parent's loop does to sub-branch `j` after building it: lift it
   * to the parent's tip, turn it to its azimuth, draw its elevation and its
   * extra z tilt, and record the result as the rest rotation.
   */
  function Place(c: Branch, j: nat, parentLength: real, parentLevel: nat, d: Draws, k: nat): Branch
  {
    var rot := Euler((d(k) * 0.5 + 0.3) * Spread(parentLevel),
                     j as real * AngleStep(parentLevel),
                     c.rotation.z + (d(k + 1) - 0.5) * 0.2);
    c.(position := c.position.(y := parentLength), rotation := rot, rest := rot)
  }

  /** The facts about a leaf that its three draws guarantee. */
  ghost predicate LeafOk(leaf: Leaf, leafSize: real)
  {
    && 0.0 <= leaf.phi < TWO_PI
    && 0.0 <= leaf.theta < PI
    && leaf.distance == leafSize * 2.0
    && (0.0 <= leafSize ==> 0.8 * leafSize <= leaf.size && leaf.size <= 1.2 * leafSize)
  }

  /** The tilt of the branch mesh: none on the trunk, within [-0.1,0.1) on x and z elsewhere. */
  ghost predicate TiltOk(level: nat, t: Euler)
  {
    if level == 0 then t == NoRotation
    else -0.1 <= t.x < 0.1 && t.y == 0.0 && -0.1 <= t.z < 0.1
  }

  /** Sub-branch `j` of a group at `level` with the given length and thickness. */
  ghost predicate ChildOf(c: Branch, j: nat, level: nat, length: real, thickness: real)
  {
    && c.level == level + 1
    && c.length == length * LengthRatio(level)
    && c.thickness == thickness * THICKNESS_RATIO
    && c.position == Vec3(0.0, length, 0.0)
    && c.rotation == c.rest
    && c.rest.y == j as real * AngleStep(level)
    && 0.3 * Spread(level) <= c.rest.x < 0.8 * Spread(level)
    && -0.1 <= c.rest.z < 0.1
  }

  /** The invariant of every group `createBranch` builds with the given maximum depth. */
  ghost predicate Grown(b: Branch, maxLevels: int)
  {
    && b.geometry == BranchGeometry(b.length, b.thickness)
    && b.material == RoleMaterial(MaterialKey(b.level))
    && b.meshPosition == Vec3(0.0, b.length / 2.0, 0.0)
    && TiltOk(b.level, b.meshRotation)
    && |b.leaves| == (if HasLeaves(b.level, maxLevels) then LEAVES_PER_CLUSTER else 0)
    && (forall i :: 0 <= i < |b.leaves| ==> LeafOk(b.leaves[i], b.thickness * 3.0))
    && |b.children| == (if b.level < maxLevels then NumBranches(b.level) else 0)
    && (forall j :: 0 <= j < |b.children| ==> ChildOf(b.children[j], j, b.level, b.length, b.thickness))
    && (forall j :: 0 <= j < |b.children| ==> Grown(b.children[j], maxLevels))
  }

  lemma ClusterOk(d: Draws, k: nat, leafSize: real)
    requires Unit(d)
    ensures |Cluster(d, k, leafSize)| == LEAVES_PER_CLUSTER
    ensures forall i :: 0 <= i < LEAVES_PER_CLUSTER ==> LeafOk(Cluster(d, k, leafSize)[i], leafSize)
  {
    forall i | 0 <= i < LEAVES_PER_CLUSTER
      ensures LeafOk(Cluster(d, k, leafSize)[i], leafSize)
    {
      var u, v, w := d(k + 3 * i), d(k + 3 * i + 1), d(k + 3 * i + 2);
      assert 0.0 <= u < 1.0 && 0.0 <= v < 1.0 && 0.0 <= w < 1.0;
      var size := Cluster(d, k, leafSize)[i].size;
      assert size == (0.8 + w * 0.4) * leafSize;
      if 0.0 <= leafSize {
        MulLeft(leafSize, 0.8, 0.8 + w * 0.4);
        MulLeft(leafSize, 0.8 + w * 0.4, 1.2);
        assert leafSize * (0.8 + w * 0.4) == size;
      }
    }
  }

  /** Placing a freshly built sub-branch under its parent makes it child `j` and keeps its own invariant. */
  lemma PlaceChild(c: Branch, j: nat, length: real, thickness: real, level: nat, d: Draws, k: nat, maxLevels: int)
    requires 0.0 <= d(k) < 1.0 && 0.0 <= d(k + 1) < 1.0
    requires c.level == level + 1 && c.length == length * LengthRatio(level)
    requires c.thickness == thickness * THICKNESS_RATIO
    requires c.position == Origin && c.rotation == NoRotation
    requires Grown(c, maxLevels)
    ensures ChildOf(Place(c, j, length, level, d, k), j, level, length, thickness)
    ensures Grown(Place(c, j, length, level, d, k), maxLevels)
  {
    MulLeft(Spread(level), 0.3, d(k) * 0.5 + 0.3);
    MulRightStrict(d(k) * 0.5 + 0.3, 0.8, Spread(level));
  }

  /**
   * `createBranch(length, thickness, level, maxLevels)` with its random
   * draws starting at `k`: the group and the cursor after its last draw.
   * The new group sits at the origin, unrotated, with a zero rest rotation;
   * its parent's loop places it.
   */
  function Build(length: real, thickness: real, level: nat, maxLevels: int, d: Draws, k: nat): (r: (Branch, nat))
    ensures r.0.level == level && r.0.length == length && r.0.thickness == thickness
    ensures r.0.position == Origin && r.0.rotation == NoRotation && r.0.rest == NoRotation
    ensures k <= r.1
    decreases maxLevels - level, 1
  {
    var (tilt, k1) := MeshTilt(level, d, k);
    var leafy := HasLeaves(level, maxLevels);
    var leaves := if leafy then Cluster(d, k1, thickness * 3.0) else [];
    var k2 := if leafy then k1 + 3 * LEAVES_PER_CLUSTER else k1;
    var (kids, k3) := if level < maxLevels then Kids(length, thickness, level, maxLevels, d, k2, NumBranches(level))
                      else ([], k2);
    (Branch(level, length, thickness, BranchGeometry(length, thickness), RoleMaterial(MaterialKey(level)),
            Vec3(0.0, length / 2.0, 0.0), tilt, Origin, NoRotation, NoRotation, leaves, kids), k3)
  }

  /** The first `i` sub-branches of a group at `level` below `maxLevels`, in the order the loop adds them. */
  function Kids(length: real, thickness: real, level: nat, maxLevels: int, d: Draws, k: nat, i: nat): (r: (seq<Branch>, nat))
    requires level < maxLevels
    ensures |r.0| == i
    ensures k <= r.1
    decreases maxLevels - level, 0, i
  {
    if i == 0 then ([], k)
    else
      var (done, k1) := Kids(length, thickness, level, maxLevels, d, k, i - 1);
      var (c, k2) := Build(length * LengthRatio(level), thickness * THICKNESS_RATIO, level + 1, maxLevels, d, k1);
      (done + [Place(c, i - 1, length, level, d, k2)], k2 + 2)
  }

  /** `Build` assembled from its parts, in the order `createBranch` produces them. */
  lemma BuildNode(length: real, thickness: real, level: nat, maxLevels: int, d: Draws, k: nat,
                  tilt: Euler, k1: nat, leaves: seq<Leaf>, k2: nat, kids: seq<Branch>, k3: nat)
    requires (tilt, k1) == MeshTilt(level, d, k)
    requires leaves == (if HasLeaves(level, maxLevels) then Cluster(d, k1, thickness * 3.0) else [])
    requires k2 == (if HasLeaves(level, maxLevels) then k1 + 3 * LEAVES_PER_CLUSTER else k1)
    requires level < maxLevels ==> (kids, k3) == Kids(length, thickness, level, maxLevels, d, k2, NumBranches(level))
    requires maxLevels <= level ==> kids == [] && k3 == k2
    ensures Build(length, thickness, level, maxLevels, d, k)
         == (Branch(level, length, thickness, BranchGeometry(length, thickness), RoleMaterial(MaterialKey(level)),
                    Vec3(0.0, length / 2.0, 0.0), tilt, Origin, NoRotation, NoRotation, leaves, kids), k3)
  {
  }

  /** One more turn of the sub-branch loop: build the next child from the current cursor and place it. */
  lemma KidsStep(length: real, thickness: real, level: nat, maxLevels: int, d: Draws, k: nat, i: nat,
                 kids: seq<Branch>, k1: nat, c: Branch, k2: nat)
    requires level < maxLevels
    requires (kids, k1) == Kids(length, thickness, level, maxLevels, d, k, i)
    requires (c, k2) == Build(length * LengthRatio(level), thickness * THICKNESS_RATIO, level + 1, maxLevels, d, k1)
    ensures Kids(length, thickness, level, maxLevels, d, k, i + 1) == (kids + [Place(c, i, length, level, d, k2)], k2 + 2)
  {
  }

  /** The mesh tilt lies in the range `TiltOk` allows, and reads two draws below the trunk. */
  lemma MeshTiltOk(level: nat, d: Draws, k: nat)
    requires Unit(d)
    ensures TiltOk(level, MeshTilt(level, d, k).0)
    ensures MeshTilt(level, d, k).1 == if level > 0 then k + 2 else k
  {
    assert 0.0 <= d(k) < 1.0 && 0.0 <= d(k + 1) < 1.0;
  }

  /** Every group `Build` returns satisfies `Grown`: the branching, size, leaf and rotation rules hold at every level. */
  lemma {:induction false} BuildGrown(length: real, thickness: real, level: nat, maxLevels: int, d: Draws, k: nat)
    requires Unit(d)
    ensures Grown(Build(length, thickness, level, maxLevels, d, k).0, maxLevels)
    decreases maxLevels - level, 1
  {
    var (tilt, k1) := MeshTilt(level, d, k);
    MeshTiltOk(level, d, k);
    var leafy := HasLeaves(level, maxLevels);
    var leaves := if leafy then Cluster(d, k1, thickness * 3.0) else [];
    ClusterOk(d, k1, thickness * 3.0);
    var k2 := if leafy then k1 + 3 * LEAVES_PER_CLUSTER else k1;
    var kids: seq<Branch>, k3: nat := [], k2;
    if level < maxLevels {
      kids, k3 := Kids(length, thickness, level, maxLevels, d, k2, NumBranches(level)).0,
                  Kids(length, thickness, level, maxLevels, d, k2, NumBranches(level)).1;
      KidsGrown(length, thickness, level, maxLevels, d, k2, NumBranches(level));
    }
    BuildNode(length, thickness, level, maxLevels, d, k, tilt, k1, leaves, k2, kids, k3);
    NodeGrown(level, length, thickness, tilt, leaves, kids, maxLevels);
  }

  /** A group assembled as `createBranch` assembles it is `Grown` when its tilt, leaves and sub-branches are. */
  lemma NodeGrown(level: nat, length: real, thickness: real, tilt: Euler, leaves: seq<Leaf>, kids: seq<Branch>, maxLevels: int)
    requires TiltOk(level, tilt)
    requires |leaves| == (if HasLeaves(level, maxLevels) then LEAVES_PER_CLUSTER else 0)
    requires forall i :: 0 <= i < |leaves| ==> LeafOk(leaves[i], thickness * 3.0)
    requires |kids| == (if level < maxLevels then NumBranches(level) else 0)
    requires forall j :: 0 <= j < |kids| ==> ChildOf(kids[j], j, level, length, thickness) && Grown(kids[j], maxLevels)
    ensures Grown(Branch(level, length, thickness, BranchGeometry(length, thickness), RoleMaterial(MaterialKey(level)),
                         Vec3(0.0, length / 2.0, 0.0), tilt, Origin, NoRotation, NoRotation, leaves, kids), maxLevels)
  {
  }

  /** The sub-branches built so far are placed as `ChildOf` says and are themselves `Grown`. */
  lemma {:induction false} KidsGrown(length: real, thickness: real, level: nat, maxLevels: int, d: Draws, k: nat, i: nat)
    requires Unit(d)
    requires level < maxLevels && i <= NumBranches(level)
    ensures forall j :: 0 <= j < i ==> ChildOf(Kids(length, thickness, level, maxLevels, d, k, i).0[j], j, level, length, thickness)
    ensures forall j :: 0 <= j < i ==> Grown(Kids(length, thickness, level, maxLevels, d, k, i).0[j], maxLevels)
    decreases maxLevels - level, 0, i
  {
    if i > 0 {
      KidsGrown(length, thickness, level, maxLevels, d, k, i - 1);
      var prev := Kids(length, thickness, level, maxLevels, d, k, i - 1);
      var built := Build(length * LengthRatio(level), thickness * THICKNESS_RATIO, level + 1, maxLevels, d, prev.1);
      BuildGrown(length * LengthRatio(level), thickness * THICKNESS_RATIO, level + 1, maxLevels, d, prev.1);
      var c := Place(built.0, i - 1, length, level, d, built.1);
      PlaceChild(built.0, i - 1, length, thickness, level, d, built.1, maxLevels);
      assert Kids(length, thickness, level, maxLevels, d, k, i).0 == prev.0 + [c];
      ChildrenSnoc(prev.0, c, level, length, thickness, maxLevels);
    }
  }

  /** Appending sub-branch number `|kids|` to correctly placed, grown sub-branches keeps them so. */
  lemma ChildrenSnoc(kids: seq<Branch>, c: Branch, level: nat, length: real, thickness: real, maxLevels: int)
    requires forall j :: 0 <= j < |kids| ==> ChildOf(kids[j], j, level, length, thickness)
    requires forall j :: 0 <= j < |kids| ==> Grown(kids[j], maxLevels)
    requires ChildOf(c, |kids|, level, length, thickness) && Grown(c, maxLevels)
    ensures forall j :: 0 <= j < |kids| + 1 ==> ChildOf((kids + [c])[j], j, level, length, thickness)
    ensures forall j :: 0 <= j < |kids| + 1 ==> Grown((kids + [c])[j], maxLevels)
  {
    assert forall j :: 0 <= j < |kids| ==> (kids + [c])[j] == kids[j];
  }
}
