/**
 * Plain records standing for the rendering library's objects: the model keeps
 * only the numbers the tree and grass code set or read, never the library
 * objects themselves.
 */
module SceneTypes {

  /** A value that may be absent (a lazily created object). */
  datatype Option<T> = None | Some(value: T)

  /** A position or scale vector (`THREE.Vector3`). */
  datatype Vec3 = Vec3(x: real, y: real, z: real)

  /** A rotation given by Euler angles in radians (`THREE.Euler`). */
  datatype Euler = Euler(x: real, y: real, z: real)

  /** Where every freshly created object sits. */
  const Origin: Vec3 := Vec3(0.0, 0.0, 0.0)

  /** The rotation of every freshly created object. */
  const NoRotation: Euler := Euler(0.0, 0.0, 0.0)

  /** The parameters of a `THREE.CylinderGeometry`. */
  datatype Cylinder = Cylinder(radiusTop: real, radiusBottom: real, height: real, radialSegments: nat)

  /** The parameters of a `THREE.SphereGeometry`. */
  datatype Sphere = Sphere(radius: real, widthSegments: nat, heightSegments: nat)

  /** The parameters of a `THREE.MeshStandardMaterial`. */
  datatype Material = Standard(color: nat, roughness: real, metalness: real)
}
