/** The collider value types of the game engine: an axis-aligned box or a
    sphere, each tagged with the id of the game object that owns it. The
    getters return by value (see README for the reference-to-temporary
    defect of the source's getters). */
module Colliders {
  import opened Vectors

  datatype Collider =
    | Box(owner: int, position: Vec3, dimensions: Vec3)
    | Sphere(owner: int, position: Vec3, radius: real)

  /** The base-class part of a collider: what is left when a box or a
      sphere is copied into a value of the base type. */
  datatype ColliderBase = ColliderBase(owner: int, position: Vec3)

  /** Copying a collider into a base-type value keeps only its owner and position. */
  function Slice(c: Collider): (b: ColliderBase)
    ensures b.owner == c.owner && b.position == GetPosition(c)
  {
    ColliderBase(c.owner, c.position)
  }

  /** Slicing forgets the shape: a box and a sphere with the same owner and
      position are indistinguishable afterwards, whatever their extents. */
  lemma SliceForgetsShape(owner: int, pos: Vec3, dim: Vec3, rad: real)
    ensures Slice(NewBox(owner, pos, dim)) == Slice(NewSphere(owner, pos, rad))
  {
  }

  /** What a collider is apart from its owner and its position. */
  datatype Shape = BoxShape(dimensions: Vec3) | SphereShape(radius: real)

  function ShapeOf(c: Collider): Shape
  {
    match c
    case Box(_, _, d) => BoxShape(d)
    case Sphere(_, _, r) => SphereShape(r)
  }

  /** `Collider::getPosition`. */
  function GetPosition(c: Collider): Vec3
  {
    c.position
  }

  /** `Collider::setPosition`: the position becomes `p`, nothing else moves. */
  function SetPosition(c: Collider, p: Vec3): (r: Collider)
    ensures GetPosition(r) == p
    ensures r.owner == c.owner
    ensures ShapeOf(r) == ShapeOf(c)
  {
    c.(position := p)
  }

  /** Setting a position and reading back what was there is the identity, and the last write wins. */
  lemma SetPositionLaws(c: Collider, p: Vec3, q: Vec3)
    ensures SetPosition(c, GetPosition(c)) == c
    ensures SetPosition(SetPosition(c, p), q) == SetPosition(c, q)
    ensures GetPosition(SetPosition(SetPosition(c, p), q)) == q
  {
  }

  /** `BoxCollider(id, pos, dim)` as written: the position member is assigned
      to itself, so it keeps `initial`, whatever default construction of the
      base left in it, and `pos` is never read. */
  function BoxColliderAsWritten(id: int, pos: Vec3, dim: Vec3, initial: Vec3): (c: Collider)
    ensures c.Box? && c.owner == id && c.dimensions == dim
    ensures GetPosition(c) == initial
  {
    Box(id, initial, dim)
  }

  /** The as-written box constructor stores the requested position only
      when it happens to equal the value already in the member. */
  lemma BoxColliderAsWrittenDropsPosition(id: int, pos: Vec3, dim: Vec3, initial: Vec3)
    ensures GetPosition(BoxColliderAsWritten(id, pos, dim, initial)) == pos <==> pos == initial
    ensures GetPosition(BoxColliderAsWritten(0, Vec3(1.0, 0.0, 0.0), One3, Vec3(0.0, 0.0, 0.0))) != Vec3(1.0, 0.0, 0.0)
  {
  }

  /** `BoxCollider(id, pos, dim)` as evidently intended: all three arguments are stored. */
  function NewBox(id: int, pos: Vec3, dim: Vec3): (c: Collider)
    ensures c.Box? && c.owner == id
    ensures GetPosition(c) == pos
    ensures GetDimensions(c) == dim
  {
    Box(id, pos, dim)
  }

  /** `SphereCollider(id, pos, rad)`: all three arguments are stored. */
  function NewSphere(id: int, pos: Vec3, rad: real): (c: Collider)
    ensures c.Sphere? && c.owner == id
    ensures GetPosition(c) == pos
    ensures GetRadius(c) == rad
  {
    Sphere(id, pos, rad)
  }

  /** `BoxCollider::getDimensions`; only a box has dimensions. */
  function GetDimensions(c: Collider): Vec3
    requires c.Box?
  {
    c.dimensions
  }

  /** `BoxCollider::setDimensions`: only the dimensions change. */
  function SetDimensions(c: Collider, d: Vec3): (r: Collider)
    requires c.Box?
    ensures r.Box? && GetDimensions(r) == d
    ensures r.owner == c.owner && GetPosition(r) == GetPosition(c)
  {
    c.(dimensions := d)
  }

  /** `SphereCollider::getRadius`; only a sphere has a radius. */
  function GetRadius(c: Collider): real
    requires c.Sphere?
  {
    c.radius
  }

  /** `SphereCollider::setRadius`: only the radius changes. */
  function SetRadius(c: Collider, rad: real): (r: Collider)
    requires c.Sphere?
    ensures r.Sphere? && GetRadius(r) == rad
    ensures r.owner == c.owner && GetPosition(r) == GetPosition(c)
  {
    c.(radius := rad)
  }

  /** Moving a collider does not touch its extents, and resizing it does not move it. */
  lemma PositionAndExtentsIndependent(c: Collider, p: Vec3, d: Vec3, rad: real)
    ensures c.Box? ==> GetDimensions(SetPosition(c, p)) == GetDimensions(c)
    ensures c.Box? ==> SetDimensions(SetPosition(c, p), d) == SetPosition(SetDimensions(c, d), p)
    ensures c.Sphere? ==> GetRadius(SetPosition(c, p)) == GetRadius(c)
    ensures c.Sphere? ==> SetRadius(SetPosition(c, p), rad) == SetPosition(SetRadius(c, rad), p)
  {
  }
}
