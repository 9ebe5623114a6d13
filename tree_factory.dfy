/**
 * `createBranch` as the source runs it (js/tree.js): the geometry and
 * material caches kept on the function object, the lazily created leaf
 * assets, the loop that adds the leaf cluster and the loop that builds and
 * places the sub-branches.
 *
 * The functions `CacheGeo`, `CacheMat` and `AnyLeaves` say what the caches
 * hold after a subtree has been built, visiting the groups in the order the
 * recursion creates them; the lemmas show that this is a get-or-insert
 * discipline. `CreateBranch` is proved to build exactly the tree `Build`
 * describes and to leave the caches as those functions say.
 */
module TreeFactory {
  import opened Numeric
  import opened SceneTypes
  import opened TreeShape
  import opened TreeFacts

  /** `createBranch.geometries`, keyed by `${length}-${thickness}`. */
  type GeoCache = map<(real, real), Cylinder>

  /** `createBranch.materials`, keyed `trunk` or `branch`. */
  type MatCache = map<string, Material>

  /** One geometry lookup: a cached cylinder is kept, a missing one is created and stored. */
  function InsertGeo(g: GeoCache, length: real, thickness: real): GeoCache
  {
    if (length, thickness) in g then g else g[(length, thickness) := BranchGeometry(length, thickness)]
  }

  /** One material lookup for a group at `level`. */
  function InsertMat(m: MatCache, level: nat): MatCache
  {
    if MaterialKey(level) in m then m else m[MaterialKey(level) := RoleMaterial(MaterialKey(level))]
  }

  /** The geometry cache after building subtree `b`: its own lookup first, then its sub-branches in order. */
  function CacheGeo(g: GeoCache, b: Branch): GeoCache
    decreases b
  {
    ForestCacheGeo(InsertGeo(g, b.length, b.thickness), b.children)
  }

  function ForestCacheGeo(g: GeoCache, cs: seq<Branch>): GeoCache
    decreases cs
  {
    if cs == [] then g else CacheGeo(ForestCacheGeo(g, cs[..|cs| - 1]), cs[|cs| - 1])
  }

  /** The material cache after building subtree `b`. */
  function CacheMat(m: MatCache, b: Branch): MatCache
    decreases b
  {
    ForestCacheMat(InsertMat(m, b.level), b.children)
  }

  function ForestCacheMat(m: MatCache, cs: seq<Branch>): MatCache
    decreases cs
  {
    if cs == [] then m else CacheMat(ForestCacheMat(m, cs[..|cs| - 1]), cs[|cs| - 1])
  }

  /** Whether some group of the subtree carries a leaf cluster (and so asks for the leaf assets). */
  function AnyLeaves(b: Branch): bool
    decreases b
  {
    b.leaves != [] || ForestAnyLeaves(b.children)
  }

  function ForestAnyLeaves(cs: seq<Branch>): bool
    decreases cs
  {
    cs != [] && (ForestAnyLeaves(cs[..|cs| - 1]) || AnyLeaves(cs[|cs| - 1]))
  }

  /** Every cached cylinder is the one created for its key. */
  ghost predicate GeometriesOk(g: GeoCache)
  {
    forall key :: key in g ==> g[key] == BranchGeometry(key.0, key.1)
  }

  /** Only the two role keys occur, each with the material created for it. */
  ghost predicate MaterialsOk(m: MatCache)
  {
    && m.Keys <= {"trunk", "branch"}
    && (forall key :: key in m ==> m[key] == RoleMaterial(key))
  }

  /**
   * The geometry cache is get-or-insert: building a subtree adds exactly the
   * keys its groups ask for, never replaces a cached cylinder, and keeps
   * every entry the one created for its key.
   */
  lemma {:induction false} CacheGeoGetOrInsert(g: GeoCache, b: Branch)
    ensures CacheGeo(g, b).Keys == g.Keys + GeoKeys(b)
    ensures forall key :: key in g ==> key in CacheGeo(g, b) && CacheGeo(g, b)[key] == g[key]
    ensures GeometriesOk(g) ==> GeometriesOk(CacheGeo(g, b))
    decreases b, 1
  {
    ForestCacheGeoGetOrInsert(InsertGeo(g, b.length, b.thickness), b.children);
  }

  lemma {:induction false} ForestCacheGeoGetOrInsert(g: GeoCache, cs: seq<Branch>)
    ensures ForestCacheGeo(g, cs).Keys == g.Keys + ForestGeoKeys(cs)
    ensures forall key :: key in g ==> key in ForestCacheGeo(g, cs) && ForestCacheGeo(g, cs)[key] == g[key]
    ensures GeometriesOk(g) ==> GeometriesOk(ForestCacheGeo(g, cs))
    decreases cs, 0
  {
    if cs != [] {
      ForestCacheGeoGetOrInsert(g, cs[..|cs| - 1]);
      CacheGeoGetOrInsert(ForestCacheGeo(g, cs[..|cs| - 1]), cs[|cs| - 1]);
    }
  }

  /**
   * The material cache is get-or-insert in the same way, and when it starts
   * with role keys only it keeps holding only `trunk` and `branch`.
   */
  lemma {:induction false} CacheMatGetOrInsert(m: MatCache, b: Branch)
    ensures CacheMat(m, b).Keys == m.Keys + MatKeys(b)
    ensures forall key :: key in m ==> key in CacheMat(m, b) && CacheMat(m, b)[key] == m[key]
    ensures MaterialsOk(m) ==> MaterialsOk(CacheMat(m, b))
    decreases b, 1
  {
    ForestCacheMatGetOrInsert(InsertMat(m, b.level), b.children);
  }

  lemma {:induction false} ForestCacheMatGetOrInsert(m: MatCache, cs: seq<Branch>)
    ensures ForestCacheMat(m, cs).Keys == m.Keys + ForestMatKeys(cs)
    ensures forall key :: key in m ==> key in ForestCacheMat(m, cs) && ForestCacheMat(m, cs)[key] == m[key]
    ensures MaterialsOk(m) ==> MaterialsOk(ForestCacheMat(m, cs))
    decreases cs, 0
  {
    if cs != [] {
      ForestCacheMatGetOrInsert(m, cs[..|cs| - 1]);
      CacheMatGetOrInsert(ForestCacheMat(m, cs[..|cs| - 1]), cs[|cs| - 1]);
    }
  }

  /**
   * Appending a placed sub-branch to a forest extends each cache by that
   * sub-branch; where its parent puts it does not matter.
   */
  lemma ForestAppendPlaced(cs: seq<Branch>, c: Branch, j: nat, parentLength: real, parentLevel: nat, d: Draws, k: nat,
                           g: GeoCache, m: MatCache)
    ensures ForestCacheGeo(g, cs + [Place(c, j, parentLength, parentLevel, d, k)]) == CacheGeo(ForestCacheGeo(g, cs), c)
    ensures ForestCacheMat(m, cs + [Place(c, j, parentLength, parentLevel, d, k)]) == CacheMat(ForestCacheMat(m, cs), c)
    ensures ForestAnyLeaves(cs + [Place(c, j, parentLength, parentLevel, d, k)]) == (ForestAnyLeaves(cs) || AnyLeaves(c))
  {
    assert (cs + [Place(c, j, parentLength, parentLevel, d, k)])[..|cs|] == cs;
  }

  /** The state `createBranch` keeps between calls: `geometries`, `materials`, `leafGeometry`, `leafMaterial`. */
  class BranchFactory {
    var geometries: GeoCache
    var materials: MatCache
    var leafGeometry: Option<Sphere>
    var leafMaterial: Option<Material>

    /** Every cached object is the one created for its key; the leaf assets are created together. */
    ghost predicate Valid()
      reads this
    {
      && GeometriesOk(geometries)
      && MaterialsOk(materials)
      && (leafGeometry.Some? <==> leafMaterial.Some?)
      && (leafGeometry.Some? ==> leafGeometry.value == LeafGeometry && leafMaterial.value == LeafMaterial)
    }

    /** Before the first call no cache exists; an empty cache behaves the same. */
    constructor ()
      ensures Valid()
      ensures geometries == map[] && materials == map[]
      ensures leafGeometry == None && leafMaterial == None
    {
      geometries := map[];
      materials := map[];
      leafGeometry := None;
      leafMaterial := None;
    }

    /** The geometry lookup keyed `length-thickness`: return the cached cylinder, creating it on a miss. */
    method GeometryFor(length: real, thickness: real) returns (g: Cylinder)
      requires Valid()
      modifies this
      ensures Valid()
      ensures g == BranchGeometry(length, thickness)
      ensures geometries == InsertGeo(old(geometries), length, thickness)
      ensures materials == old(materials) && leafGeometry == old(leafGeometry) && leafMaterial == old(leafMaterial)
    {
      var key := (length, thickness);
      if key in geometries {
        g := geometries[key];
      } else {
        g := Cylinder(thickness * 0.7, thickness, length, 8);
        geometries := geometries[key := g];
      }
    }

    /** The material lookup keyed by role: return the cached material, creating it on a miss. */
    method MaterialFor(level: nat) returns (mat: Material)
      requires Valid()
      modifies this
      ensures Valid()
      ensures mat == RoleMaterial(MaterialKey(level))
      ensures materials == InsertMat(old(materials), level)
      ensures geometries == old(geometries) && leafGeometry == old(leafGeometry) && leafMaterial == old(leafMaterial)
    {
      var key := if level == 0 then "trunk" else "branch";
      if key in materials {
        mat := materials[key];
      } else {
        mat := Standard(if level == 0 then TRUNK_COLOR else BRANCH_COLOR, 1.0, 0.0);
        materials := materials[key := mat];
      }
    }

    /** The leaf geometry and material are created together on the first leaf cluster and kept. */
    method EnsureLeafAssets()
      requires Valid()
      modifies this
      ensures Valid()
      ensures leafGeometry == Some(LeafGeometry) && leafMaterial == Some(LeafMaterial)
      ensures geometries == old(geometries) && materials == old(materials)
    {
      if leafGeometry.None? {
        leafGeometry := Some(Sphere(1.0, 8, 8));
        leafMaterial := Some(Standard(LEAF_COLOR, 0.8, 0.1));
      }
    }

    /** The mesh part of `createBranch`: look up the group's cylinder and material. */
    method MeshFor(length: real, thickness: real, level: nat) returns (geometry: Cylinder, material: Material)
      requires Valid()
      modifies this
      ensures Valid()
      ensures geometry == BranchGeometry(length, thickness) && material == RoleMaterial(MaterialKey(level))
      ensures geometries == InsertGeo(old(geometries), length, thickness)
      ensures materials == InsertMat(old(materials), level)
      ensures leafGeometry == old(leafGeometry)
    {
      geometry := GeometryFor(length, thickness);
      material := MaterialFor(level);
    }

    /** The leaf part of `createBranch`: the cluster of a group above `maxLevels - 2`, with the assets created on first use. */
    method LeavesFor(thickness: real, level: nat, maxLevels: int, d: Draws, k: nat) returns (leaves: seq<Leaf>, next: nat)
      requires Valid()
      modifies this
      ensures Valid()
      ensures leaves == (if HasLeaves(level, maxLevels) then Cluster(d, k, thickness * 3.0) else [])
      ensures next == (if HasLeaves(level, maxLevels) then k + 3 * LEAVES_PER_CLUSTER else k)
      ensures leaves != [] <==> HasLeaves(level, maxLevels)
      ensures geometries == old(geometries) && materials == old(materials)
      ensures leafGeometry.Some? == (old(leafGeometry).Some? || leaves != [])
    {
      leaves, next := [], k;
      if level > maxLevels - 2 {
        EnsureLeafAssets();
        leaves, next := LeafCluster(d, k, thickness * 3.0);
      }
    }

    /**
     * `createBranch(length, thickness, level, maxLevels)` with its random
     * draws starting at `k`: the group is `Build`'s and the caches end up as
     * `CacheGeo`, `CacheMat` and `AnyLeaves` say.
     */
    method CreateBranch(length: real, thickness: real, level: nat, maxLevels: int, d: Draws, k: nat)
      returns (b: Branch, next: nat)
      requires Valid()
      modifies this
      ensures Valid()
      ensures (b, next) == Build(length, thickness, level, maxLevels, d, k)
      ensures geometries == CacheGeo(old(geometries), b)
      ensures materials == CacheMat(old(materials), b)
      ensures leafGeometry.Some? == (old(leafGeometry).Some? || AnyLeaves(b))
      decreases maxLevels - level, 3, 0
    {
      var geometry, material := MeshFor(length, thickness, level);
      var tilt, k1 := Tilt(level, d, k);
      var leaves, k2 := LeavesFor(thickness, level, maxLevels, d, k1);
      var kids, cursor := SubBranchesFor(length, thickness, level, maxLevels, d, k2);
      b := Branch(level, length, thickness, geometry, material, Vec3(0.0, length / 2.0, 0.0), tilt,
                  Origin, NoRotation, NoRotation, leaves, kids);
      next := cursor;
      BuildNode(length, thickness, level, maxLevels, d, k, tilt, k1, leaves, k2, kids, next);
    }

    /** The random tilt of a non-trunk branch mesh: z is drawn first, then x. */
    static method Tilt(level: nat, d: Draws, k: nat) returns (tilt: Euler, next: nat)
      ensures (tilt, next) == MeshTilt(level, d, k)
    {
      tilt, next := NoRotation, k;
      if level > 0 {
        var tiltZ := (d(k) - 0.5) * 0.2;
        var tiltX := (d(k + 1) - 0.5) * 0.2;
        tilt := Euler(tiltX, 0.0, tiltZ);
        next := k + 2;
      }
    }

    /** The sub-branch part of `createBranch`: groups below `maxLevels` get their sub-branches, the others none. */
    method SubBranchesFor(length: real, thickness: real, level: nat, maxLevels: int, d: Draws, k: nat)
      returns (kids: seq<Branch>, next: nat)
      requires Valid()
      modifies this
      ensures Valid()
      ensures level < maxLevels ==> (kids, next) == Kids(length, thickness, level, maxLevels, d, k, NumBranches(level))
      ensures maxLevels <= level ==> kids == [] && next == k
      ensures geometries == ForestCacheGeo(old(geometries), kids)
      ensures materials == ForestCacheMat(old(materials), kids)
      ensures leafGeometry.Some? == (old(leafGeometry).Some? || ForestAnyLeaves(kids))
      decreases maxLevels - level, 2, 0
    {
      kids, next := [], k;
      if level < maxLevels {
        kids, next := AddSubBranches(length, thickness, level, maxLevels, d, k);
      }
    }

    /** The sub-branch loop of `createBranch`: build each child, lift it to the tip and turn it to its azimuth. */
    method AddSubBranches(length: real, thickness: real, level: nat, maxLevels: int, d: Draws, k: nat)
      returns (kids: seq<Branch>, next: nat)
      requires Valid() && level < maxLevels
      modifies this
      ensures Valid()
      ensures (kids, next) == Kids(length, thickness, level, maxLevels, d, k, NumBranches(level))
      ensures geometries == ForestCacheGeo(old(geometries), kids)
      ensures materials == ForestCacheMat(old(materials), kids)
      ensures leafGeometry.Some? == (old(leafGeometry).Some? || ForestAnyLeaves(kids))
      decreases maxLevels - level, 1, 0
    {
      var numBranches := NumBranches(level);
      kids, next := [], k;
      var i := 0;
      while i < numBranches
        invariant 0 <= i <= numBranches
        invariant (kids, next) == Kids(length, thickness, level, maxLevels, d, k, i)
        invariant Valid()
        invariant geometries == ForestCacheGeo(old(geometries), kids)
        invariant materials == ForestCacheMat(old(materials), kids)
        invariant leafGeometry.Some? == (old(leafGeometry).Some? || ForestAnyLeaves(kids))
      {
        kids, next := SubBranch(length, thickness, level, maxLevels, d, k, i, kids, next,
                                old(geometries), old(materials), old(leafGeometry).Some?);
        i := i + 1;
      }
    }

    /** One turn of the sub-branch loop: build sub-branch `i` from the current cursor, place it and add it. */
    method SubBranch(length: real, thickness: real, level: nat, maxLevels: int, d: Draws, k: nat, i: nat,
                     kids: seq<Branch>, next: nat, ghost g0: GeoCache, ghost m0: MatCache, ghost hadLeaves: bool)
      returns (kids': seq<Branch>, next': nat)
      requires Valid() && level < maxLevels
      requires (kids, next) == Kids(length, thickness, level, maxLevels, d, k, i)
      requires geometries == ForestCacheGeo(g0, kids) && materials == ForestCacheMat(m0, kids)
      requires leafGeometry.Some? == (hadLeaves || ForestAnyLeaves(kids))
      modifies this
      ensures Valid()
      ensures (kids', next') == Kids(length, thickness, level, maxLevels, d, k, i + 1)
      ensures geometries == ForestCacheGeo(g0, kids') && materials == ForestCacheMat(m0, kids')
      ensures leafGeometry.Some? == (hadLeaves || ForestAnyLeaves(kids'))
      decreases maxLevels - level, 0, 0
    {
      var built, after := CreateBranch(length * LengthRatio(level), thickness * THICKNESS_RATIO, level + 1, maxLevels, d, next);
      var sub := PlaceSub(built, i, length, level, d, after);
      KidsStep(length, thickness, level, maxLevels, d, k, i, kids, next, built, after);
      ForestAppendPlaced(kids, built, i, length, level, d, after, g0, m0);
      kids' := kids + [sub];
      next' := after + 2;
    }

    /** The body of the sub-branch loop after the recursive call: lift the group to the parent's tip, turn it, record its rest rotation. */
    static method PlaceSub(built: Branch, i: nat, length: real, level: nat, d: Draws, k: nat) returns (sub: Branch)
      ensures sub == Place(built, i, length, level, d, k)
    {
      var angleStep := (PI * 2.0) / NumBranches(level) as real;
      sub := built.(position := built.position.(y := length));
      var spread := if level == 0 then 0.6 else 0.9;
      var branchAngle := i as real * angleStep;
      var rot := Euler((d(k) * 0.5 + 0.3) * spread, branchAngle, sub.rotation.z + (d(k + 1) - 0.5) * 0.2);
      sub := sub.(rotation := rot, rest := rot);
    }

    /** The leaf loop of `createBranch`: eight leaves, three draws each. */
    static method LeafCluster(d: Draws, k: nat, leafSize: real) returns (leaves: seq<Leaf>, next: nat)
      ensures leaves == Cluster(d, k, leafSize) && next == k + 3 * LEAVES_PER_CLUSTER
      ensures |leaves| == LEAVES_PER_CLUSTER
    {
      leaves := [];
      next := k;
      var i := 0;
      while i < LEAVES_PER_CLUSTER
        invariant 0 <= i <= LEAVES_PER_CLUSTER
        invariant next == k + 3 * i
        invariant leaves == Cluster(d, k, leafSize)[..i]
      {
        var phi := d(next) * PI * 2.0;
        var theta := d(next + 1) * PI;
        var radius := leafSize * 2.0;
        var scale := 0.8 + d(next + 2) * 0.4;
        var leaf := Leaf(phi, theta, radius, scale * leafSize);
        assert leaf == MakeLeaf(d, next, leafSize) == Cluster(d, k, leafSize)[i];
        assert Cluster(d, k, leafSize)[..i + 1] == Cluster(d, k, leafSize)[..i] + [leaf];
        leaves := leaves + [leaf];
        next := next + 3;
        i := i + 1;
      }
    }
  }
}
