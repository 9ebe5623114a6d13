/**
 * The `Environment` class of js/environment.js: the grass meshes it keeps
 * in `grassInstances`, the rejection-sampling loop of `createGrass` that
 * pushes them, and `animate`, which overwrites every blade's live pose in
 * place through the scratch objects `position` and `euler`.
 *
 * Both methods are proved to follow the value-level definitions of the
 * `Grass` module: `createGrass` appends the blades of `Field`, `animate`
 * replaces every blade by `SwayBlade` of it.
 */
module Environment {
  import opened Numeric
  import opened SceneTypes
  import opened Grass

  /** One grass mesh: its live position, rotation and height scale, and the rest pose in `userData`. */
  class GrassMesh {
    var position: Vec3
    var rotation: Euler
    var scaleY: real
    var initialPosition: Vec3
    var initialRotation: Euler

    /** The mesh read as a value. */
    function State(): Blade
      reads this
    {
      Blade(position, rotation, scaleY, initialPosition, initialRotation)
    }

    /** `new THREE.Mesh(grassGeometry, grassMaterial)`: at the origin, unrotated, unit scale, no rest pose yet. */
    constructor ()
      ensures position == Origin && rotation == NoRotation && scaleY == 1.0
      ensures initialPosition == Origin && initialRotation == NoRotation
    {
      position, rotation, scaleY := Origin, NoRotation, 1.0;
      initialPosition, initialRotation := Origin, NoRotation;
    }
  }

  /** The values of the meshes `ms`, in order. */
  function Poses(ms: seq<GrassMesh>): (r: seq<Blade>)
    reads ms
    ensures |r| == |ms|
    ensures forall i :: 0 <= i < |ms| ==> r[i] == ms[i].State()
  {
    seq(|ms|, i reads ms requires 0 <= i < |ms| => ms[i].State())
  }

  /** The values of meshes with one more mesh at the end. */
  lemma PosesSnoc(ms: seq<GrassMesh>, g: GrassMesh)
    ensures Poses(ms + [g]) == Poses(ms) + [g.State()]
  {
    assert forall i :: 0 <= i < |ms| ==> (ms + [g])[i] == ms[i];
  }

  /** A turn on blades held in front of the field's own blades leaves those in front. */
  lemma TurnAppend(m: MathFns, d: Draws, front: seq<Blade>, blades: seq<Blade>, k: nat)
    ensures Turn(m, d, front + blades, k) == (front + Turn(m, d, blades, k).0, Turn(m, d, blades, k).1)
  {
    if Accepts(Sample(m, d, k), m) {
      assert front + blades + [NewBlade(Sample(m, d, k), d, k + 4)] == front + (blades + [NewBlade(Sample(m, d, k), d, k + 4)]);
    }
  }

  /**
   * The blade one accepted turn of the loop creates for the point `c`, with
   * the turn's last four draws at `k`: height, yaw and the two rest tilts.
   */
  method PlantBlade(c: Candidate, d: Draws, k: nat) returns (grass: GrassMesh)
    ensures fresh(grass)
    ensures grass.State() == NewBlade(c, d, k)
  {
    var height := 0.8 + d(k) * 0.4;
    grass := new GrassMesh();
    grass.scaleY := height;
    grass.position := Vec3(c.x, height / 2.0, c.z);
    grass.rotation := grass.rotation.(y := d(k + 1) * TWO_PI);
    grass.initialPosition := grass.position;
    grass.initialRotation := Euler((d(k + 2) - 0.5) * 0.2, grass.rotation.y, (d(k + 3) - 0.5) * 0.2);
  }

  class Environment {
    var grassInstances: seq<GrassMesh>
    /** The scratch vector `animate` builds each new position in. */
    var position: Vec3
    /** The scratch rotation `animate` builds each new rotation in. */
    var euler: Euler

    /** Every mesh is held once, so updating one blade leaves the others alone. */
    ghost predicate Valid()
      reads this
    {
      forall i, j :: 0 <= i < j < |grassInstances| ==> grassInstances[i] != grassInstances[j]
    }

    /** The blades as values. */
    function States(): seq<Blade>
      reads this, grassInstances
    {
      Poses(grassInstances)
    }

    /** Every blade lies outside the clearing with the height and rest pose the sampling gives. */
    ghost predicate Planted()
      reads this, grassInstances
    {
      forall i :: 0 <= i < |States()| ==> RestOk(States()[i])
    }

    /**
     * Meshes holding the blades of `createGrass` are planted: each lies
     * outside the clearing with the sampled height and rest pose, and there
     * are at most as many as the loop has turns.
     */
    lemma FieldPlanted(m: MathFns, d: Draws, k: nat)
      requires Unit(d) && SqrtOk(m) && States() == Field(m, d, k, NUM_GRASS_BLADES).0
      ensures Planted() && |grassInstances| <= NUM_GRASS_BLADES
    {
      FieldFresh(m, d, k, NUM_GRASS_BLADES);
      FieldCount(m, d, k, NUM_GRASS_BLADES);
    }

    /**
     * `new Environment(scene)`: no blades, then `createGrass` with its draws
     * starting at `k`. The ground plane and the scene graph are not part of
     * this model.
     */
    constructor (m: MathFns, d: Draws, k: nat)
      ensures Valid()
      ensures States() == Field(m, d, k, NUM_GRASS_BLADES).0
      ensures position == Origin && euler == NoRotation
    {
      grassInstances := [];
      position, euler := Origin, NoRotation;
      new;
      assert States() == [];
      var next := CreateGrass(m, d, k);
      assert [] + Field(m, d, k, NUM_GRASS_BLADES).0 == Field(m, d, k, NUM_GRASS_BLADES).0;
    }

    /**
     * `createGrass` with its draws starting at `k`: 8000 turns, each
     * sampling a point from four draws and, when the point lies outside the
     * clearing, pushing a new blade made from four more draws. The blades
     * already held keep their state; `next` is the cursor after the loop.
     */
    method CreateGrass(m: MathFns, d: Draws, k: nat) returns (next: nat)
      requires Valid()
      modifies this
      ensures Valid()
      ensures States() == old(States()) + Field(m, d, k, NUM_GRASS_BLADES).0
      ensures next == Field(m, d, k, NUM_GRASS_BLADES).1
      ensures position == old(position) && euler == old(euler)
    {
      ghost var heldStates := States();
      next := k;
      for i := 0 to NUM_GRASS_BLADES
        invariant Valid()
        invariant States() == heldStates + Field(m, d, k, i).0
        invariant next == Field(m, d, k, i).1
        invariant position == old(position) && euler == old(euler)
      {
        ghost var prev := Field(m, d, k, i);
        next := GrowTurn(m, d, next);
        TurnAppend(m, d, heldStates, prev.0, prev.1);
      }
    }

    /**
     * One turn of the loop of `createGrass` at cursor `k`: four draws for a
     * point and, when it lies outside the clearing, a new blade from four
     * more draws pushed at the end.
     */
    method GrowTurn(m: MathFns, d: Draws, k: nat) returns (next: nat)
      requires Valid()
      modifies this
      ensures Valid()
      ensures |grassInstances| >= |old(grassInstances)| && grassInstances[..|old(grassInstances)|] == old(grassInstances)
      ensures forall i :: |old(grassInstances)| <= i < |grassInstances| ==> fresh(grassInstances[i])
      ensures (States(), next) == Turn(m, d, old(States()), k)
      ensures position == old(position) && euler == old(euler)
    {
      var r := m.sqrt(d(k)) * FIELD_RADIUS;
      var angle := d(k + 1) * TWO_PI;
      var x := m.cos(angle) * r + (d(k + 2) - 0.5) * 5.0;
      var z := m.sin(angle) * r + (d(k + 3) - 0.5) * 5.0;
      var distanceFromCenter := m.sqrt(SquaredDistance(x, z));
      assert Sample(m, d, k) == Candidate(r, angle, x, z);
      if distanceFromCenter < CLEARING_RADIUS {
        return k + 4;
      }
      var grass := PlantBlade(Candidate(r, angle, x, z), d, k + 4);
      PosesSnoc(grassInstances, grass);
      grassInstances := grassInstances + [grass];
      next := k + 8;
    }

    /**
     * `animate(time, windStrength)`: every blade's live position and
     * rotation are recomputed from its rest pose with the angle
     * `time * 0.8`; the set of blades, their rest poses and their heights
     * stay, and the scratch objects end with the last blade's new pose.
     */
    method Animate(time: real, windStrength: real, m: MathFns)
      requires Valid()
      modifies this, grassInstances
      ensures Valid() && grassInstances == old(grassInstances)
      ensures States() == SwayField(old(States()), time, windStrength, m)
      ensures |grassInstances| == 0 ==> position == old(position) && euler == old(euler)
      ensures |grassInstances| > 0 ==>
        position == States()[|grassInstances| - 1].position && euler == States()[|grassInstances| - 1].rotation
    {
      var timeVal := time * 0.8;
      var sinTime := m.sin(timeVal);
      var cosTime := m.cos(timeVal);
      ghost var before := States();
      for i := 0 to |grassInstances|
        invariant grassInstances == old(grassInstances)
        invariant forall j :: 0 <= j < i ==>
          grassInstances[j].State() == SwayBlade(before[j], sinTime, cosTime, windStrength, m)
        invariant forall j :: i <= j < |grassInstances| ==> grassInstances[j].State() == before[j]
        invariant i == 0 ==> position == old(position) && euler == old(euler)
        invariant i > 0 ==> position == grassInstances[i - 1].position && euler == grassInstances[i - 1].rotation
      {
        SwayMesh(grassInstances[i], sinTime, cosTime, windStrength, m);
      }
      assert States() == SwayField(before, time, windStrength, m);
    }

    /**
     * The body of the loop of `animate` on one mesh: the new position is
     * built in `position` and the new rotation in `euler`, and both are
     * copied onto the mesh.
     */
    method SwayMesh(grass: GrassMesh, sinTime: real, cosTime: real, windStrength: real, m: MathFns)
      modifies this, grass
      ensures grass.State() == SwayBlade(old(grass.State()), sinTime, cosTime, windStrength, m)
      ensures position == grass.position && euler == grass.rotation
      ensures grassInstances == old(grassInstances)
    {
      var initialPosition, initialRotation := grass.initialPosition, grass.initialRotation;
      var distanceFromCenter := m.sqrt(SquaredDistance(initialPosition.x, initialPosition.z));
      var distanceFactor := Min(1.0, distanceFromCenter / FIELD_RADIUS);
      var windEffect := sinTime * windStrength * distanceFactor;
      var secondaryEffect := cosTime * windStrength * distanceFactor * 0.5;
      position := initialPosition;
      position := position.(x := position.x + windEffect * 0.2);
      position := position.(z := position.z + secondaryEffect * 0.2);
      grass.position := position;
      euler := Euler(initialRotation.x + windEffect, initialRotation.y, initialRotation.z + secondaryEffect);
      grass.rotation := euler;
    }
  }
}
