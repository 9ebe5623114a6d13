/**
 * Whole-tree facts about the groups `createBranch` builds (js/tree.js):
 * which levels occur, where the leaf clusters are, how many groups and
 * leaves there are, and how many distinct geometries and materials the
 * caches end up holding. Each is proved from the invariant `Grown`, and
 * `InitTree` instantiates them for the tree `init` builds,
 * `createBranch(15, 2, 0, 5)`.
 */
module TreeFacts {
  import opened Numeric
  import opened TreeShape

  /** The levels of all groups in the subtree. */
  function Levels(b: Branch): set<nat>
  {
    {b.level} + (set j, l | 0 <= j < |b.children| && l in Levels(b.children[j]) :: l)
  }

  /** The levels of the groups in the subtree that carry leaves. */
  function LeafLevels(b: Branch): set<nat>
  {
    (if |b.leaves| > 0 then {b.level} else {})
    + (set j, l | 0 <= j < |b.children| && l in LeafLevels(b.children[j]) :: l)
  }

  /** The geometry cache keys the subtree's groups ask for. */
  function GeoKeys(b: Branch): set<(real, real)>
    decreases b
  {
    {(b.length, b.thickness)} + ForestGeoKeys(b.children)
  }

  function ForestGeoKeys(cs: seq<Branch>): set<(real, real)>
    decreases cs
  {
    if cs == [] then {} else ForestGeoKeys(cs[..|cs| - 1]) + GeoKeys(cs[|cs| - 1])
  }

  /** The material cache keys the subtree's groups ask for. */
  function MatKeys(b: Branch): set<string>
    decreases b
  {
    {MaterialKey(b.level)} + ForestMatKeys(b.children)
  }

  function ForestMatKeys(cs: seq<Branch>): set<string>
    decreases cs
  {
    if cs == [] then {} else ForestMatKeys(cs[..|cs| - 1]) + MatKeys(cs[|cs| - 1])
  }

  /** The number of groups in a subtree. */
  function NodeCount(b: Branch): nat
    decreases b
  {
    1 + ForestCount(b.children)
  }

  function ForestCount(cs: seq<Branch>): nat
    decreases cs
  {
    if cs == [] then 0 else ForestCount(cs[..|cs| - 1]) + NodeCount(cs[|cs| - 1])
  }

  /** The number of leaves in a subtree. */
  function LeafCount(b: Branch): nat
    decreases b
  {
    |b.leaves| + ForestLeaves(b.children)
  }

  function ForestLeaves(cs: seq<Branch>): nat
    decreases cs
  {
    if cs == [] then 0 else ForestLeaves(cs[..|cs| - 1]) + LeafCount(cs[|cs| - 1])
  }

  /** The group count `createBranch` produces from `level`, by the branching rule alone. */
  function SubtreeSize(level: nat, maxLevels: int): nat
    decreases maxLevels - level
  {
    if level >= maxLevels then 1 else 1 + NumBranches(level) * SubtreeSize(level + 1, maxLevels)
  }

  /** The leaf count `createBranch` produces from `level`, by the branching and leaf rules alone. */
  function SubtreeLeaves(level: nat, maxLevels: int): nat
    decreases maxLevels - level
  {
    (if HasLeaves(level, maxLevels) then LEAVES_PER_CLUSTER else 0)
    + (if level >= maxLevels then 0 else NumBranches(level) * SubtreeLeaves(level + 1, maxLevels))
  }

  /** A subtree grown from `level` holds every level from `level` to `maxLevels`, and no other. */
  lemma {:induction false} LevelsSpan(b: Branch, maxLevels: int)
    requires Grown(b, maxLevels) && b.level <= maxLevels
    ensures forall l :: l in Levels(b) <==> b.level <= l <= maxLevels
  {
    forall j | 0 <= j < |b.children|
      ensures forall l :: l in Levels(b.children[j]) <==> b.level + 1 <= l <= maxLevels
    {
      LevelsSpan(b.children[j], maxLevels);
    }
    if b.level < maxLevels {
      assert |b.children| > 0;
      forall l | b.level + 1 <= l <= maxLevels ensures l in Levels(b) {
        assert l in Levels(b.children[0]);
      }
    }
  }

  /** Leaf clusters sit exactly on the groups whose level is above `maxLevels - 2`. */
  lemma {:induction false} LeafLevelsSpan(b: Branch, maxLevels: int)
    requires Grown(b, maxLevels) && b.level <= maxLevels
    ensures forall l :: l in LeafLevels(b) <==> b.level <= l <= maxLevels && l > maxLevels - 2
  {
    forall j | 0 <= j < |b.children|
      ensures forall l :: l in LeafLevels(b.children[j]) <==> b.level + 1 <= l <= maxLevels && l > maxLevels - 2
    {
      LeafLevelsSpan(b.children[j], maxLevels);
    }
    if b.level < maxLevels {
      assert |b.children| > 0;
      forall l | b.level + 1 <= l <= maxLevels && l > maxLevels - 2 ensures l in LeafLevels(b) {
        assert l in LeafLevels(b.children[0]);
      }
    }
  }

  lemma {:induction false} ForestUniform(cs: seq<Branch>, size: nat, leaves: nat)
    requires forall j :: 0 <= j < |cs| ==> NodeCount(cs[j]) == size && LeafCount(cs[j]) == leaves
    ensures ForestCount(cs) == |cs| * size
    ensures ForestLeaves(cs) == |cs| * leaves
  {
    if cs != [] {
      ForestUniform(cs[..|cs| - 1], size, leaves);
    }
  }

  /** The group and leaf counts of a grown subtree depend only on its level and the maximum depth. */
  lemma {:induction false} CountsByLevel(b: Branch, maxLevels: int)
    requires Grown(b, maxLevels)
    ensures NodeCount(b) == SubtreeSize(b.level, maxLevels)
    ensures LeafCount(b) == SubtreeLeaves(b.level, maxLevels)
  {
    forall j | 0 <= j < |b.children|
      ensures NodeCount(b.children[j]) == SubtreeSize(b.level + 1, maxLevels)
      ensures LeafCount(b.children[j]) == SubtreeLeaves(b.level + 1, maxLevels)
    {
      CountsByLevel(b.children[j], maxLevels);
    }
    if b.level < maxLevels {
      ForestUniform(b.children, SubtreeSize(b.level + 1, maxLevels), SubtreeLeaves(b.level + 1, maxLevels));
    } else {
      assert b.children == [];
    }
  }

  /** The geometry keys of the levels from `level` down to `maxLevels`, one per level. */
  function LevelDims(length: real, thickness: real, level: nat, maxLevels: int): set<(real, real)>
    decreases maxLevels - level
  {
    {(length, thickness)}
    + if level < maxLevels
      then LevelDims(length * LengthRatio(level), thickness * THICKNESS_RATIO, level + 1, maxLevels)
      else {}
  }

  /** A non-empty forest whose trees all ask for the same geometries asks for exactly those. */
  lemma {:induction false} ForestGeoUniform(cs: seq<Branch>, geo: set<(real, real)>)
    requires |cs| > 0
    requires forall j :: 0 <= j < |cs| ==> GeoKeys(cs[j]) == geo
    ensures ForestGeoKeys(cs) == geo
  {
    if |cs| > 1 {
      ForestGeoUniform(cs[..|cs| - 1], geo);
    }
  }

  /** A non-empty forest whose trees all ask for the same materials asks for exactly those. */
  lemma {:induction false} ForestMatUniform(cs: seq<Branch>, mat: set<string>)
    requires |cs| > 0
    requires forall j :: 0 <= j < |cs| ==> MatKeys(cs[j]) == mat
    ensures ForestMatKeys(cs) == mat
  {
    if |cs| > 1 {
      ForestMatUniform(cs[..|cs| - 1], mat);
    }
  }

  /** The material keys of a subtree are the two roles, and only the trunk asks for "trunk". */
  lemma {:induction false} MatKeysRoles(b: Branch, maxLevels: int)
    requires Grown(b, maxLevels)
    ensures MatKeys(b) <= {"trunk", "branch"}
    ensures b.level > 0 ==> MatKeys(b) == {"branch"}
    ensures b.level == 0 && 0 < maxLevels ==> MatKeys(b) == {"trunk", "branch"}
  {
    forall j | 0 <= j < |b.children| ensures MatKeys(b.children[j]) == {"branch"} {
      MatKeysRoles(b.children[j], maxLevels);
    }
    if |b.children| > 0 {
      ForestMatUniform(b.children, {"branch"});
    }
  }

  /** A grown subtree asks for one geometry per level: the dimensions its branches shrink to. */
  lemma {:induction false} GeoKeysByLevel(b: Branch, maxLevels: int)
    requires Grown(b, maxLevels)
    ensures GeoKeys(b) == LevelDims(b.length, b.thickness, b.level, maxLevels)
  {
    if b.level < maxLevels {
      var wanted := LevelDims(b.length * LengthRatio(b.level), b.thickness * THICKNESS_RATIO, b.level + 1, maxLevels);
      forall j | 0 <= j < |b.children| ensures GeoKeys(b.children[j]) == wanted {
        GeoKeysByLevel(b.children[j], maxLevels);
      }
      ForestGeoUniform(b.children, wanted);
    } else {
      assert b.children == [];
    }
  }

  lemma {:induction false} LevelDimsSize(length: real, thickness: real, level: nat, maxLevels: int)
    ensures |LevelDims(length, thickness, level, maxLevels)| <= if level < maxLevels then maxLevels - level + 1 else 1
    decreases maxLevels - level
  {
    if level < maxLevels {
      LevelDimsSize(length * LengthRatio(level), thickness * THICKNESS_RATIO, level + 1, maxLevels);
    }
  }

  /** Geometry sharing bounds the cache by the depth of the tree, whatever its node count. */
  lemma GeoKeysBound(b: Branch, maxLevels: int)
    requires Grown(b, maxLevels) && b.level <= maxLevels
    ensures |GeoKeys(b)| <= maxLevels - b.level + 1
  {
    GeoKeysByLevel(b, maxLevels);
    LevelDimsSize(b.length, b.thickness, b.level, maxLevels);
  }

  /**
   * The tree `init` builds with `createBranch(15, 2, 0, 5)`: its deepest
   * group has level 5, leaves sit on levels 4 and 5 only, it has 2047
   * groups and 15360 leaves, and it needs at most six geometries and
   * exactly the two branch materials.
   */
  lemma InitTree(d: Draws, k: nat, t: Branch)
    requires Unit(d) && t == Build(15.0, 2.0, 0, 5, d, k).0
    ensures Levels(t) == {0, 1, 2, 3, 4, 5}
    ensures LeafLevels(t) == {4, 5}
    ensures NodeCount(t) == 2047 && LeafCount(t) == 15360
    ensures |GeoKeys(t)| <= 6
    ensures MatKeys(t) == {"trunk", "branch"}
  {
    BuildGrown(15.0, 2.0, 0, 5, d, k);
    GrownFacts(t);
  }

  /** The whole-tree facts for any grown trunk of maximum depth 5. */
  lemma GrownFacts(t: Branch)
    requires t.level == 0 && Grown(t, 5)
    ensures Levels(t) == {0, 1, 2, 3, 4, 5}
    ensures LeafLevels(t) == {4, 5}
    ensures NodeCount(t) == 2047 && LeafCount(t) == 15360
    ensures |GeoKeys(t)| <= 6
    ensures MatKeys(t) == {"trunk", "branch"}
  {
    assert Levels(t) == {0, 1, 2, 3, 4, 5} by {
      LevelsSpan(t, 5);
      AllSixLevels(Levels(t));
    }
    assert LeafLevels(t) == {4, 5} by {
      LeafLevelsSpan(t, 5);
      TopTwoLevels(LeafLevels(t));
    }
    assert NodeCount(t) == 2047 && LeafCount(t) == 15360 by {
      CountsByLevel(t, 5);
      InitCounts();
    }
    GeoKeysBound(t, 5);
    MatKeysRoles(t, 5);
  }

  lemma AllSixLevels(s: set<nat>)
    requires forall l :: l in s <==> 0 <= l <= 5
    ensures s == {0, 1, 2, 3, 4, 5}
  {
    assert 0 in s && 1 in s && 2 in s && 3 in s && 4 in s && 5 in s;
  }

  lemma TopTwoLevels(s: set<nat>)
    requires forall l :: l in s <==> 0 <= l <= 5 && l > 5 - 2
    ensures s == {4, 5}
  {
    assert 4 in s && 5 in s;
  }

  lemma InitCounts()
    ensures SubtreeSize(0, 5) == 2047 && SubtreeLeaves(0, 5) == 15360
  {
    assert SubtreeSize(5, 5) == 1 && SubtreeLeaves(5, 5) == 8;
    assert SubtreeSize(4, 5) == 5 && SubtreeLeaves(4, 5) == 40;
    assert SubtreeSize(3, 5) == 21 && SubtreeLeaves(3, 5) == 160;
    assert SubtreeSize(2, 5) == 85 && SubtreeLeaves(2, 5) == 640;
    assert SubtreeSize(1, 5) == 341 && SubtreeLeaves(1, 5) == 2560;
  }
}
