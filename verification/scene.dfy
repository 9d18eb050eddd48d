/**
 * The AR scene shared by every part of the program: a base image, an overlay image, and the
 * overlay's position, rotation and scale.
 */
module Scene {
  import opened Wrappers

  /**
   * A JavaScript number held in a position, rotation or scale component. The program only stores
   * and passes these values along, so the model never computes on them.
   */
  type Num = real

  /** An `{ x, y, z }` object. */
  datatype Vec3 = Vec3(x: Num, y: Num, z: Num)

  /** The `'x' | 'y' | 'z'` key of an axis. */
  datatype Axis = X | Y | Z

  function Component(v: Vec3, a: Axis): Num {
    match a
    case X => v.x
    case Y => v.y
    case Z => v.z
  }

  /** `{ ...v, [a]: value }`: a copy of v whose a-component is value and whose other components are v's. */
  function WithAxis(v: Vec3, a: Axis, value: Num): (r: Vec3)
    ensures Component(r, a) == value
    ensures forall b: Axis | b != a :: Component(r, b) == Component(v, b)
  {
    match a
    case X => v.(x := value)
    case Y => v.(y := value)
    case Z => v.(z := value)
  }

  /** `{ x: 0, y: 0, z: 0 }`, the default position and rotation. */
  const Origin: Vec3 := Vec3(0.0, 0.0, 0.0)

  /** The default scale. */
  const UnitScale: Num := 1.0

  /** JavaScript truthiness of a `string | null` value: present and not empty. */
  predicate Truthy(s: Option<string>) {
    s.Some? && s.value != ""
  }

  /** The data a viewer displays: the `arData` objects of the share generator and the viewer page. */
  datatype SceneData = SceneData(
    baseImage: Option<string>,
    overlayImage: Option<string>,
    position: Vec3,
    rotation: Vec3,
    scale: Num)

  /** No images, the overlay at the origin, unrotated, at scale 1. */
  const EmptyScene: SceneData := SceneData(None, None, Origin, Origin, UnitScale)
}
