/**
 * The module-level state of js/tree.js and its use in `init` and
 * `animate`: the wind clock `windTime`, the wind strength, the root
 * cluster, the tree built by `createBranch(15, 2, 0, 5)` and the
 * environment with its grass. `init` draws its random numbers in source
 * order: first the grass, then the roots, then the tree.
 */
module Scene {
  import opened Numeric
  import opened TreeShape
  import opened TreeFacts
  import opened TreeRoots
  import opened TreeFactory
  import opened TreeWind
  import opened Grass
  import Environment

  /** The step `animate` adds to `windTime` every frame. */
  const WIND_STEP: real := 0.005

  /** The initial `windStrength`. */
  const INITIAL_WIND_STRENGTH: real := 0.5

  /** The arguments of `createRoot` in `init`. */
  const ROOT_RADIUS: real := 2.0
  const ROOT_HEIGHT: real := 1.2

  /** The arguments of `createBranch` in `init`: `createBranch(15, 2, 0, 5)`. */
  const TRUNK_LENGTH: real := 15.0
  const TRUNK_THICKNESS: real := 2.0
  const MAX_LEVELS: int := 5

  /** `createBranch(length, thickness, 0, maxLevels)` on a fresh, empty cache. */
  method PlantTree(length: real, thickness: real, maxLevels: int, d: Draws, k: nat) returns (f: BranchFactory, t: Branch)
    ensures fresh(f) && f.Valid()
    ensures t == Build(length, thickness, 0, maxLevels, d, k).0
    ensures f.geometries == CacheGeo(map[], t) && f.materials == CacheMat(map[], t)
  {
    f := new BranchFactory();
    var next;
    t, next := f.CreateBranch(length, thickness, 0, maxLevels, d, k);
  }

  /** The objects `init` creates, in source order: the environment, the roots, the tree. */
  method Populate(m: MathFns, d: Draws, k: nat, length: real, thickness: real, maxLevels: int)
    returns (env: Environment.Environment, roots: seq<Root>, f: BranchFactory, t: Branch, k2: nat)
    requires Unit(d) && SqrtOk(m)
    ensures fresh(env) && env.Valid() && fresh(f) && f.Valid()
    ensures env.States() == Field(m, d, k, NUM_GRASS_BLADES).0
    ensures var k1 := Field(m, d, k, NUM_GRASS_BLADES).1;
      && k2 == k1 + 2 * ROOT_COUNT
      && RootsFrom(roots, ROOT_RADIUS, ROOT_HEIGHT, m, d, k1)
    ensures t == Build(length, thickness, 0, maxLevels, d, k2).0
    ensures f.geometries == CacheGeo(map[], t) && f.materials == CacheMat(map[], t)
  {
    env := new Environment.Environment(m, d, k);
    var k1 := Field(m, d, k, NUM_GRASS_BLADES).1;
    roots, k2 := CreateRoot(ROOT_RADIUS, ROOT_HEIGHT, m, d, k1);
    f, t := PlantTree(length, thickness, maxLevels, d, k2);
  }

  class World {
    var windTime: real
    var windStrength: real
    var roots: seq<Root>
    var tree: Branch
    const factory: BranchFactory
    const environment: Environment.Environment
    /** The `Math` functions the frames use. */
    const math: MathFns
    /** The arguments `createBranch` was called with, the random draws it read, and where they started. */
    ghost const trunkLength: real
    ghost const trunkThickness: real
    ghost const maxLevels: int
    ghost const draws: Draws
    ghost const treeCursor: nat
    /** The number of frames drawn so far. */
    ghost var frames: nat

    /**
     * The clock has advanced one step per frame; the tree is the one
     * `createBranch` built from its draws; the grass meshes are held once
     * each.
     */
    ghost predicate Valid()
      reads this, environment, factory
    {
      && Unit(draws) && SqrtOk(math)
      && windTime == frames as real * WIND_STEP
      && tree == Build(trunkLength, trunkThickness, 0, maxLevels, draws, treeCursor).0
      && environment.Valid() && factory.Valid()
    }

    /**
     * `init`, with its random draws starting at `k`: the environment with
     * its grass, then `createRoot(2, 1.2)`, then
     * `createBranch(length, thickness, 0, maxLevels)` on an empty cache;
     * `init` itself passes 15, 2 and 5 (see `InitShape`).
     */
    constructor (m: MathFns, d: Draws, k: nat, length: real, thickness: real, maxLevels: int)
      requires Unit(d) && SqrtOk(m)
      ensures Valid() && frames == 0 && fresh(environment) && fresh(factory)
      ensures windTime == 0.0 && windStrength == INITIAL_WIND_STRENGTH && math == m
      ensures environment.States() == Field(m, d, k, NUM_GRASS_BLADES).0
      ensures var k1 := Field(m, d, k, NUM_GRASS_BLADES).1;
        && RootsFrom(roots, ROOT_RADIUS, ROOT_HEIGHT, m, d, k1)
        && tree == Build(length, thickness, 0, maxLevels, d, k1 + 2 * ROOT_COUNT).0
      ensures factory.geometries == CacheGeo(map[], tree) && factory.materials == CacheMat(map[], tree)
    {
      windTime := 0.0;
      windStrength := INITIAL_WIND_STRENGTH;
      math := m;
      var env, rs, f, t, k2 := Populate(m, d, k, length, thickness, maxLevels);
      environment, roots, factory, tree := env, rs, f, t;
      trunkLength, trunkThickness, this.maxLevels := length, thickness, maxLevels;
      draws := d;
      treeCursor := k2;
      frames := 0;
    }

    /**
     * The tree `init` builds with `createBranch(15, 2, 0, 5)`: six levels,
     * leaves on the last two, 2047 groups, 15360 leaves, at most six
     * distinct cylinders and the two materials `trunk` and `branch`.
     */
    lemma InitShape()
      requires Valid()
      requires trunkLength == TRUNK_LENGTH && trunkThickness == TRUNK_THICKNESS && maxLevels == MAX_LEVELS
      ensures Levels(tree) == {0, 1, 2, 3, 4, 5} && LeafLevels(tree) == {4, 5}
      ensures NodeCount(tree) == 2047 && LeafCount(tree) == 15360
      ensures |GeoKeys(tree)| <= 6 && MatKeys(tree) == {"trunk", "branch"}
    {
      BuildGrown(trunkLength, trunkThickness, 0, maxLevels, draws, treeCursor);
      GrownFacts(tree);
    }

    /**
     * One frame of `animate`: the clock advances by 0.005, the traversal
     * sets every branch group below the trunk from its rest rotation at the
     * new time, and the environment sways its grass at the new time. The
     * tree the constructor built comes out of the traversal unchanged.
     */
    method Animate()
      requires Valid()
      modifies this, environment, environment.grassInstances
      ensures Valid() && frames == old(frames) + 1
      ensures windTime == old(windTime) + WIND_STEP
      ensures tree == SwayTree(old(tree), windTime, windStrength, math)
      ensures tree == old(tree)
      ensures environment.grassInstances == old(environment.grassInstances)
      ensures environment.States() == SwayField(old(environment.States()), windTime, windStrength, math)
      ensures windStrength == old(windStrength) && roots == old(roots)
    {
      windTime := windTime + WIND_STEP;
      frames := frames + 1;
      BuiltTreeNeverSways(trunkLength, trunkThickness, 0, maxLevels, draws, treeCursor, windTime, windStrength, math);
      tree := SwayTree(tree, windTime, windStrength, math);
      SwayGrass();
    }

    /** The environment's `animate(windTime, windStrength)`. */
    method SwayGrass()
      requires environment.Valid()
      modifies environment, environment.grassInstances
      ensures environment.Valid() && environment.grassInstances == old(environment.grassInstances)
      ensures environment.States() == SwayField(old(environment.States()), windTime, windStrength, math)
    {
      environment.Animate(windTime, windStrength, math);
    }
  }
}
