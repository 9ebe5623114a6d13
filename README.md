# A procedural tree with wind-swayed grass, modelled in Dafny

This project models the animated tree scene of js/tree.js and
js/environment.js. The scene is a procedural tree built recursively by
`createBranch`, with shared geometry and material caches, a ring of
five roots from `createRoot`, and a field of grass blades placed by
rejection sampling in `Environment.createGrass`. Every frame, `animate`
advances a wind clock and sways the tree's branch groups and the grass
blades from their recorded rest poses.

How it is modelled:

- **Random numbers.** `Math.random()` becomes a stream of draws
  `d: nat -> real`, read through an explicit cursor. `Unit(d)` says every
  draw lies in [0, 1). Each operation returns the cursor after its last
  draw, so the source's draw order is part of every contract.
- **Numbers.** JavaScript doubles become Dafny reals. `Math.sin`,
  `Math.cos` and `Math.sqrt` are a `MathFns` value passed in. Proofs that
  need a property of them assume only what they need: `SqrtOk` (a
  monotone, non-negative square root that maps squares back) or `TrigOk`
  (`sin² + cos² = 1`).
- **Tree.** A branch group is a `Branch` value (module `TreeShape`).
  `Build` defines what `createBranch` returns. The caches
  `createBranch.geometries` and `createBranch.materials`, and the leaf
  sphere and material, are the fields of the class `BranchFactory`
  (module `TreeFactory`). Its methods follow the source statement by
  statement and are proved to return `Build`'s group and to leave the
  caches as `CacheGeo` and `CacheMat` say.
- **Grass.** The grass is a `seq` of mesh objects (class
  `Environment.GrassMesh`) held by the class `Environment.Environment`.
  `createGrass` is proved to append exactly the blades of the
  value-level definition `Grass.Field`. `animate` is proved to replace
  every blade by `Grass.SwayBlade` of it.
- **Scene.** The module-level state of js/tree.js (`windTime`,
  `windStrength`, the roots, the tree and the environment) is the class
  `Scene.World`. Its constructor is `init` and its `Animate` is one frame
  of `animate`.

The main properties proved:

- **Tree shape.** Every group `createBranch` builds satisfies `Grown`:
  - 6 sub-branches on the trunk and 4 below it, none at `maxLevels`;
  - child length `0.8x` under the trunk and `0.75x` elsewhere, child thickness `0.65x`;
  - 8 leaves exactly on the levels above `maxLevels - 2`;
  - rest rotations within the source's random ranges.
- **Whole tree.** For `createBranch(15, 2, 0, 5)`: levels 0 to 5, leaves on
  levels 4 and 5, 2047 groups, 15360 leaves, at most six cached cylinders,
  and exactly the materials `trunk` and `branch`.
- **Caches.** The geometry and material caches are get-or-insert: they
  only grow, and an entry is never replaced.
- **Grass field.** Every blade lies outside the clearing of radius 3 and
  less than 85 from the centre, and carries the sampled height and rest
  tilts. Each blade comes, in order,
  from the point its loop turn sampled. A rejected point is skipped, not
  retried.
- **Sway.** Both sway updates recompute the live pose from the rest pose
  only. They are therefore idempotent, keep the rest pose, and give the
  rest pose when the wind strength is 0.
- **Wind factors.** The factors lie in [0, 1], so the wind term never
  exceeds `sinTime * windStrength` in magnitude.

A consequence of the code as written: `createBranch` puts every
sub-branch group at local position `(0, length, 0)`, on its parent's
axis. So the distance factor of the tree's wind sway is 0 for every
group, and the traversal in `animate` leaves the tree exactly as built
(`TreeWind.BuiltTreeNeverSways`, used in `Scene.World.Animate`). The
grass is unaffected: its distance factor uses each blade's planar
distance from the field centre.

## Model

| member | source | states |
|---|---|---|
| Numeric.Min | js/tree.js:327-328 | `Math.min`: the result is at most both arguments and is one of them |
| Numeric.Attenuation | js/tree.js:327-328 | `Math.min(1, x / reach)` is at most 1, non-negative for non-negative `x`, exactly 1 once `x` reaches `reach`, and 0 at 0 |
| TreeShape.MaterialKey | js/tree.js:71 | the material key is `trunk` exactly for level 0 and `branch` otherwise |
| TreeShape.MeshTiltOk | js/tree.js:85-88 | the trunk mesh is untilted and reads no draw; any other mesh is tilted within [-0.1, 0.1) on x and z and reads two draws |
| TreeShape.ClusterOk | js/tree.js:112-130 | a leaf cluster has 8 leaves, each with phi in [0, 2π), theta in [0, π), distance `2 * leafSize` and size between `0.8` and `1.2` times `leafSize` |
| TreeShape.PlaceChild | js/tree.js:145-159 | a built sub-branch moved to the parent's tip and turned to azimuth `i * 2π/n` becomes child `i`: length and thickness ratios, rest rotation equal to the live one, x tilt in `[0.3, 0.8) * spread`, z tilt in [-0.1, 0.1) |
| TreeShape.Build | js/tree.js:57-166 | the group `createBranch` returns has the requested level, length and thickness, sits unrotated at its parent's origin, and the cursor never moves back |
| TreeShape.Kids | js/tree.js:137-162 | the sub-branch loop adds exactly `i` groups after `i` turns |
| TreeShape.BuildGrown | js/tree.js:57-166 | every group `createBranch` builds satisfies `Grown` at every depth: branch count, size ratios, leaf rule `level > maxLevels - 2`, cached geometry and material, mesh offset `length / 2`, tilt ranges |
| TreeShape.KidsGrown | js/tree.js:137-162 | every sub-branch added so far is placed as child `j` and is itself `Grown` |
| TreeFacts.LevelsSpan | js/tree.js:137-145 | a grown subtree holds exactly the levels from its own up to `maxLevels` |
| TreeFacts.LeafLevelsSpan | js/tree.js:101 | leaf clusters sit on exactly the levels above `maxLevels - 2` |
| TreeFacts.CountsByLevel | js/tree.js:113-138 | the group and leaf counts of a grown subtree depend only on its level and `maxLevels` |
| TreeFacts.MatKeysRoles | js/tree.js:71-80 | a subtree asks for the materials `trunk` and `branch` only; below the trunk only `branch`; a trunk with sub-branches asks for both |
| TreeFacts.GeoKeysByLevel | js/tree.js:64-69 | a grown subtree asks for exactly one geometry key per level, the shrunk dimensions of that level |
| TreeFacts.GeoKeysBound | js/tree.js:64-69 | the geometry cache needs at most `maxLevels - level + 1` cylinders, however many groups the tree has |
| TreeFacts.InitTree | js/tree.js:252 | `createBranch(15, 2, 0, 5)` gives levels 0 to 5, leaves on levels 4 and 5, 2047 groups, 15360 leaves, at most six geometries and the materials `trunk` and `branch` |
| TreeFacts.GrownFacts | js/tree.js:252 | the same whole-tree facts for any grown trunk of maximum depth 5 |
| TreeFactory.CacheGeoGetOrInsert | js/tree.js:61-69 | building a subtree adds exactly its geometry keys to the cache, never replaces an entry, and keeps every entry the cylinder made for its key |
| TreeFactory.CacheMatGetOrInsert | js/tree.js:62-80 | building a subtree adds exactly its material keys, never replaces an entry, and keeps the cache to role keys with their materials |
| TreeFactory.ForestAppendPlaced | js/tree.js:144-161 | where the parent places a sub-branch does not change what it adds to the caches |
| TreeFactory.BranchFactory.constructor | js/tree.js:61-62 | the caches start empty and there are no leaf assets yet |
| TreeFactory.BranchFactory.GeometryFor | js/tree.js:64-69 | returns the cylinder `(0.7 * thickness, thickness, length, 8)` and inserts it only on a miss |
| TreeFactory.BranchFactory.MaterialFor | js/tree.js:71-80 | returns the trunk or branch material for the level and inserts it only on a miss |
| TreeFactory.BranchFactory.EnsureLeafAssets | js/tree.js:103-110 | afterwards the leaf sphere and leaf material exist and are the ones the source creates; the branch caches are untouched |
| TreeFactory.BranchFactory.MeshFor | js/tree.js:64-82 | the group's mesh gets its cached cylinder and material, and each cache gains at most its own key |
| TreeFactory.BranchFactory.LeavesFor | js/tree.js:101-134 | a cluster is made exactly when `level > maxLevels - 2`, reading 24 draws; afterwards the leaf assets exist exactly when they existed before or this group made a cluster |
| TreeFactory.BranchFactory.CreateBranch | js/tree.js:57-166 | returns `Build`'s group and cursor; the caches become `CacheGeo` / `CacheMat` of the old caches and the new group; the leaf assets exist exactly when they did before or the group has leaves |
| TreeFactory.BranchFactory.Tilt | js/tree.js:85-88 | the mesh tilt draws z first, then x, and only below the trunk |
| TreeFactory.BranchFactory.SubBranchesFor | js/tree.js:137-163 | groups below `maxLevels` get `Kids`' sub-branches; the others get none and read no draw |
| TreeFactory.BranchFactory.AddSubBranches | js/tree.js:137-162 | the loop builds the `numBranches` children of `Kids`, and the caches grow by exactly what those children ask for |
| TreeFactory.BranchFactory.SubBranch | js/tree.js:145-161 | one turn of the loop extends `Kids` by one child and the caches by that child |
| TreeFactory.BranchFactory.PlaceSub | js/tree.js:146-159 | the sub-branch is lifted to the parent's tip, turned to its azimuth and spread, and its rest rotation recorded |
| TreeFactory.BranchFactory.LeafCluster | js/tree.js:115-133 | the leaf loop makes the 8 leaves of `Cluster` and reads 3 draws per leaf |
| TreeRoots.CreateRoot | js/tree.js:28-55 | the five roots of `RootsFrom`, each reading its two tilt draws in turn; the cursor moves past 10 draws |
| TreeRoots.RootsLayout | js/tree.js:32-50 | five roots sharing one geometry and one material, root `i` at azimuth `i * 2π/5`, half the radius out, at height `height / 2`, tilted within [0, 0.2) on x and z and not on y |
| TreeRoots.RootOffset | js/tree.js:46-48 | with `sin² + cos² = 1`, every root lies at distance `radius * 0.5` from the trunk axis |
| TreeWind.HeightFactor | js/tree.js:327 | the height factor is at most 1 and non-negative at non-negative height |
| TreeWind.DistanceFactor | js/tree.js:322-328 | the distance factor is at most 1 and non-negative for a true square root |
| TreeWind.Swayed | js/tree.js:316-340 | the traversal keeps each group's level, sizes, geometry, material, mesh offset and tilt, position, rest rotation, leaves and number of children; the trunk keeps its rotation; every other group's y rotation is its rest y rotation (`TreeWind.SwayKeepsRestPose` states the same for the whole subtree) |
| TreeWind.SwayForgetsPreviousFrame | js/tree.js:330-338 | the new rotations do not depend on those of the previous frame |
| TreeWind.SwayIdempotent | js/tree.js:312-340 | running the traversal twice at the same wind time gives the same tree as running it once |
| TreeWind.SwayKeepsRestPose | js/tree.js:333-338 | the traversal leaves the rest rotations, positions and everything else but the live rotations unchanged at every depth |
| TreeWind.RestedAtRest | js/tree.js:155-159 | turning every group back to its rest rotation changes nothing exactly when the tree is at rest |
| TreeWind.CalmIsRest | js/tree.js:330-337 | with wind strength 0 every group below the trunk is at its rest rotation |
| TreeWind.OnAxisFeelsNoWind | js/tree.js:322-330 | groups on their parent's axis have distance factor 0, so the traversal leaves them at rest |
| TreeWind.NoWindOnAxis | js/tree.js:322-330 | a group at local x = z = 0 has distance factor 0 and wind term 0, for every frame and strength |
| TreeWind.GrownOnAxis | js/tree.js:146 | every group `createBranch` places is on its parent's axis and at its rest rotation |
| TreeWind.BuiltTreeNeverSways | js/tree.js:146-159 | for every wind time and strength, the traversal returns the tree `createBranch` built unchanged |
| TreeWind.WindEffectBounded | js/tree.js:327-330 | at non-negative height the wind term has the sign of `sinTime * windStrength` and is no larger in magnitude |
| Grass.SquaredDistance | js/environment.js:59 | `x*x + z*z` is non-negative |
| Grass.AcceptsIff | js/environment.js:59-60 | for a true square root, a point is kept exactly when `x*x + z*z >= 9` |
| Grass.SampleNear | js/environment.js:53-57 | the sampled radius is in [0, 80), the angle in [0, 2π), and each coordinate within 2.5 of the polar point |
| Grass.NewBladeOk | js/environment.js:62-74 | a new blade has height scale in [0.8, 1.2), stands at half its height, sits at rest with only its yaw, has yaw in [0, 2π) and rest tilts in [-0.1, 0.1) |
| Grass.SampleInReach | js/environment.js:53-57 | with `sin² + cos² = 1` and a true square root, every sampled point lies less than 85 from the centre: radius below 80 plus at most 2.5 of jitter on each axis |
| Grass.PolarJitterBound | js/environment.js:53-57 | a point at polar radius below 80 on the unit circle, moved by less than 2.5 on each axis, has squared distance below 85² |
| Grass.FieldCount | js/environment.js:46-60 | after `n` turns there are at most `n` blades, and the cursor has moved 4 draws per turn plus 4 per blade: a rejected point is not retried |
| Grass.FieldFresh | js/environment.js:52-81 | every blade the loop pushes lies outside the clearing and satisfies the new-blade facts |
| Grass.FieldFromSamples | js/environment.js:52-81 | the blades are, in order, the blades made from the accepted sampled points, at increasing cursors 8 or more draws apart |
| Grass.SampledInRing | js/environment.js:53-74 | a blade made from an accepted sample stands at planar distance at least 3 and below 85 from the centre |
| Grass.FieldInReach | js/environment.js:52-81 | every blade `createGrass` pushes stands at planar distance at least 3 and below 85 from the centre |
| Grass.GrassDistanceFactor | js/environment.js:94-98 | the grass distance factor is at most 1 and non-negative for a true square root |
| Grass.SwayBlade | js/environment.js:91-116 | a frame keeps the rest pose and the height scale; live height and yaw equal the rest ones |
| Grass.CalmBlade | js/environment.js:101-116 | with wind strength 0 a blade stands exactly at its rest pose |
| Grass.SwayBladeForgets | js/environment.js:104-116 | a blade's new pose does not depend on its pose in an earlier frame |
| Grass.SwayFieldFacts | js/environment.js:84-117 | a frame is idempotent on the field and keeps every blade's sampling facts |
| Environment.PlantBlade | js/environment.js:62-74 | the new mesh is fresh and holds `NewBlade` of the point and its four draws |
| Environment.GrassMesh.constructor | js/environment.js:63 | a new mesh sits at the origin, unrotated, at unit scale |
| Environment.Environment.FieldPlanted | js/environment.js:46-81 | meshes holding the sampled field all lie outside the clearing with their sampled pose, and there are at most 8000 |
| Environment.Environment.constructor | js/environment.js:4-25 | a new environment holds exactly the blades `createGrass` samples, each mesh once |
| Environment.Environment.CreateGrass | js/environment.js:45-82 | the blades become the old blades followed by `Field`'s 8000-turn blades, the cursor ends where `Field` says, and the meshes stay distinct |
| Environment.Environment.GrowTurn | js/environment.js:53-80 | one loop turn: the held meshes stay; at most one fresh mesh is added; the state is one `Turn` |
| Environment.Environment.Animate | js/environment.js:84-118 | every blade becomes `SwayBlade` of its old state at angle `time * 0.8`, the list of meshes is unchanged, and the scratch objects hold the last blade's pose |
| Environment.Environment.SwayMesh | js/environment.js:91-116 | one mesh gets `SwayBlade` of its old state, built in the scratch position and rotation |
| Scene.PlantTree | js/tree.js:252 | `createBranch` on empty caches yields `Build`'s tree, with caches holding exactly its keys |
| Scene.Populate | js/tree.js:236-252 | the environment, then the roots, then the tree, each reading its draws after the previous one |
| Scene.World.constructor | js/tree.js:236-259 | `init`: wind time 0, wind strength 0.5, the sampled grass, the root cluster and `Build`'s tree with its caches |
| Scene.World.InitShape | js/tree.js:252 | the tree `init` builds has levels 0 to 5, leaves on levels 4 and 5, 2047 groups, 15360 leaves, at most six geometries and the two materials |
| Scene.World.Animate | js/tree.js:305-345 | one frame: the clock advances by 0.005; the tree is the traversal's result, which equals the tree before; the grass is swayed at the new time |
| Scene.World.SwayGrass | js/tree.js:343-345 | the environment's `animate` at the current wind time and strength |

## Left out

- The sun (`updateSunPosition`, the directional light and its shadow settings), the camera, the renderer, the orbit controls, window resizing and `requestAnimationFrame`: rendering set-up with no logic to prove.
- `setupControlListeners` and the DOM sliders: wind strength is a field the model leaves as set; the slider's `parseFloat` is input parsing outside the model.
- `Environment.createGround` and the ground plane: a fixed mesh with no computation.
- js/cone.js and js/taurusknot.js are not part of this model.
- `scene.add`, `group.add`, `castShadow` and `receiveShadow`: scene-graph membership and flags. The tree keeps its children in a sequence instead.
- Object identity of shared geometries and materials: a cache entry is a value, so "the same object" becomes "the value stored for that key".
- The geometry key string `` `${length}-${thickness}` `` is modelled as the pair `(length, thickness)`. Two different pairs whose decimal forms join to the same string are not modelled.
- The lazy creation of `createBranch.geometries` and `createBranch.materials` is modelled as starting from an empty map.
- Leaf positions: a leaf keeps its `phi`, `theta`, distance and size, not the Cartesian position computed from them.
- The `instanceof THREE.Group`, `userData.initialRotation` and `userData.level || 0` guards of the traversal: every `Branch` is a group with a rest rotation and a level.
- `setRotationFromEuler` with its quaternion: a rotation is modelled as its Euler angles.
- The traversal modifies the groups in place. The model reassigns the tree value.
- The module-level scratch `euler` of js/tree.js, which the traversal sets for each group before copying it onto the group: the model writes each group's new rotation directly, so the value the scratch object holds after a frame is not modelled.
- The roots are not swayed, as in the source: they are meshes, not groups.
- The `grassGeometry` and `grassMaterial` objects, and the unused `matrix`, `quaternion` and `scale` scratch objects.
- IEEE-754 double arithmetic: every number is an exact real. `Math.pow(u, 0.5)` is read as a square root. `Math.sin`, `Math.cos` and `Math.sqrt` are uninterpreted apart from `SqrtOk` and `TrigOk`.
- Scene.World.constructor: takes the trunk length, thickness and depth as parameters. `Scene.World.InitShape` states the facts for the values 15, 2 and 5 that `init` passes.
- Environment.Environment.CreateGrass: states the blades' values and that every mesh is held once; that previously held meshes are the same objects and new meshes are fresh is stated per turn by `Environment.Environment.GrowTurn`.
- Environment.Environment.constructor: does not state that the meshes it creates are fresh objects.
