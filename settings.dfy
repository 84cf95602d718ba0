/** Engine-wide constants (settings.py) and the small value types the other modules share. */
module Settings {

  // World settings (settings.py:27-38)
  const CHUNK_SIZE: int := 48
  const H_CHUNK_SIZE: int := CHUNK_SIZE / 2
  const CHUNK_AREA: int := CHUNK_SIZE * CHUNK_SIZE
  const CHUNK_VOLUME: int := CHUNK_SIZE * CHUNK_AREA

  const WORLD_WIDTH: int := 100
  const WORLD_HEIGHT: int := 2
  const WORLD_DEPTH: int := WORLD_WIDTH
  const WORLD_AREA: int := WORLD_WIDTH * WORLD_DEPTH
  const WORLD_VOLUME: int := WORLD_HEIGHT * WORLD_AREA

  // Camera settings (settings.py:18-19); the field-of-view angles are irrational and are
  // given to the frustum as precomputed factors instead.
  const NEAR: real := 0.1
  const FAR: real := 2000.0

  // Player settings (settings.py:10, 43-45, 52)
  const GO_THROUGH: bool := false
  const PLAYER_WIDTH: real := 0.6
  const PLAYER_HEIGHT: real := 1.8
  const PLAYER_DEPTH: real := 0.6
  const COLLISION_OFFSET: real := 0.1

  /** The conventional optional value, for Python's `None`. */
  datatype Option<T> = None | Some(value: T)

  /** An integer triple: a chunk position, a local or a world voxel position. */
  datatype IVec3 = IVec3(x: int, y: int, z: int)

  /** A glm `vec3` over exact reals. */
  datatype Vec3 = Vec3(x: real, y: real, z: real)
  {
    function Add(o: Vec3): Vec3 { Vec3(x + o.x, y + o.y, z + o.z) }
    function Sub(o: Vec3): Vec3 { Vec3(x - o.x, y - o.y, z - o.z) }
    function Scale(k: real): Vec3 { Vec3(k * x, k * y, k * z) }
    function Neg(): Vec3 { Vec3(-x, -y, -z) }
  }

  function Dot(a: Vec3, b: Vec3): real
  {
    a.x * b.x + a.y * b.y + a.z * b.z
  }

  function Min(a: int, b: int): int
  {
    if a <= b then a else b
  }
}
