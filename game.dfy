/**
  The pure helpers of the game interface (src/game.rs): the machine integer
  widths the game uses, the object-type enumeration and its normalisation from
  the raw type word, positions and the distance between them, and the fixed
  blacklist of game-object ids.

  The raw memory readers and the calls into the game client are not modelled
  here; the selection engine (module Scripts) reads an abstract world snapshot
  instead.
*/
module Game {

  newtype u32 = x: int | 0 <= x < 0x1_0000_0000
  newtype u64 = x: int | 0 <= x < 0x1_0000_0000_0000_0000
  newtype i32 = x: int | -0x8000_0000 <= x < 0x8000_0000

  const U32_MAX: u32 := 0xFFFF_FFFF

  // ---------------------------------------------------------------------------
  // Object types
  // ---------------------------------------------------------------------------

  /** The object types of the game, with `None` as the `#[default]` variant. */
  datatype ObjectType = None | Item | Container | Unit | Player | GameObject | DynamicObject | Corpse
  {
    /** The `#[repr(u32)]` discriminant of the variant. */
    function Discriminant(): (d: u32)
      ensures d <= 7
      ensures d == 0 <==> this == None
    {
      match this
      case None => 0
      case Item => 1
      case Container => 2
      case Unit => 3
      case Player => 4
      case GameObject => 5
      case DynamicObject => 6
      case Corpse => 7
    }
  }

  /** `ObjectType::default()`. */
  function DefaultObjectType(): (t: ObjectType)
    ensures t.Discriminant() == 0
  {
    ObjectType.None
  }

  /** `ObjectType::from(u32)`: the raw type word read from an object, normalised. */
  function FromRaw(value: u32): (t: ObjectType)
    ensures t != ObjectType.None <==> 1 <= value <= 7
    ensures t != ObjectType.None ==> t.Discriminant() == value
  {
    match value
    case 1 => Item
    case 2 => Container
    case 3 => Unit
    case 4 => Player
    case 5 => GameObject
    case 6 => DynamicObject
    case 7 => Corpse
    case _ => ObjectType.None
  }

  /** Normalising a variant's own discriminant gives the variant back. */
  lemma {:induction false} FromRawRoundTrip(t: ObjectType)
    ensures FromRaw(t.Discriminant()) == t
  {
    match t
    case None =>
    case Item =>
    case Container =>
    case Unit =>
    case Player =>
    case GameObject =>
    case DynamicObject =>
    case Corpse =>
  }

  /** The raw values the game's tests name as unknown all normalise to `None`. */
  lemma FromRawUnknownValues()
    ensures FromRaw(0) == ObjectType.None
    ensures FromRaw(8) == ObjectType.None
    ensures FromRaw(100) == ObjectType.None
    ensures FromRaw(U32_MAX) == ObjectType.None
  {
  }

  // ---------------------------------------------------------------------------
  // Positions
  // ---------------------------------------------------------------------------

  /** A position; the game lays it out as y, x, z. Coordinates are reals: float rounding is not modelled. */
  datatype C3Vector = C3Vector(y: real, x: real, z: real)
  {
    /**
      `C3Vector::distance`, squared: the Euclidean distance is the square root
      of this value. Comparing squared distances against squared thresholds
      decides the same as comparing the distances themselves (SquareOrder).
    */
    function SquaredDistanceTo(other: C3Vector): (d: real)
      ensures d >= 0.0
    {
      var dx := other.x - x;
      var dy := other.y - y;
      var dz := other.z - z;
      SquareNonNegative(dx);
      SquareNonNegative(dy);
      SquareNonNegative(dz);
      dx * dx + dy * dy + dz * dz
    }
  }

  /** A square is never negative. */
  lemma SquareNonNegative(a: real)
    ensures a * a >= 0.0
  {
    if a != 0.0 {
      SquarePositive(a);
    }
  }

  /** The square of a non-zero number is positive. */
  lemma SquarePositive(a: real)
    requires a != 0.0
    ensures a * a > 0.0
  {
    if a > 0.0 {
      PositiveProduct(a, a);
    } else {
      var n := -a;
      PositiveProduct(n, n);
      assert n * n == a * a;
    }
  }

  lemma PositiveProduct(a: real, b: real)
    requires a > 0.0 && b > 0.0
    ensures a * b > 0.0
  {
  }

  /** The distance from a point to itself is zero. */
  lemma DistanceToSelf(a: C3Vector)
    ensures a.SquaredDistanceTo(a) == 0.0
  {
  }

  /** For non-negative distances, squaring preserves and reflects the strict and the non-strict order. */
  lemma SquareOrder(a: real, b: real)
    requires a >= 0.0 && b >= 0.0
    ensures a < b <==> a * a < b * b
    ensures a <= b <==> a * a <= b * b
  {
    if a < b {
      SquareLess(a, b);
    } else if b < a {
      SquareLess(b, a);
    }
  }

  lemma SquareLess(a: real, b: real)
    requires 0.0 <= a < b
    ensures a * a < b * b
  {
    PositiveProduct(b - a, b + a);
    assert b * b - a * a == (b - a) * (b + a);
  }

  /** Distance does not depend on the direction in which it is measured. */
  lemma DistanceSymmetric(a: C3Vector, b: C3Vector)
    ensures a.SquaredDistanceTo(b) == b.SquaredDistanceTo(a)
  {
  }

  /** The 3-4-5 triangle of the game's tests, at the origin and at the edge of the interaction range. */
  lemma DistanceExamples()
    ensures C3Vector(0.0, 0.0, 0.0).SquaredDistanceTo(C3Vector(4.0, 3.0, 0.0)) == 25.0
    ensures C3Vector(200.0, 100.0, 50.0).SquaredDistanceTo(C3Vector(204.0, 103.0, 50.0)) == 25.0
    ensures C3Vector(200.0, 100.0, 50.0).SquaredDistanceTo(C3Vector(200.0, 106.0, 50.0)) == 36.0
    ensures C3Vector(-1.0, -1.0, -1.0).SquaredDistanceTo(C3Vector(1.0, 1.0, 1.0)) == 12.0
  {
    assert 3.0 * 3.0 == 9.0 && 4.0 * 4.0 == 16.0 && 6.0 * 6.0 == 36.0 && 2.0 * 2.0 == 4.0;
  }

  // ---------------------------------------------------------------------------
  // Blacklisted game-object ids
  // ---------------------------------------------------------------------------

  /** Game-object ids that must never be interacted with automatically. */
  const BLACKLISTED_OBJECTS: seq<u32> := [179830, 179831, 179785, 179786]

  /** The set built once from the list above. */
  function Blacklist(): (s: set<u32>)
    ensures forall id :: id in s <==> id in BLACKLISTED_OBJECTS
  {
    set i | 0 <= i < |BLACKLISTED_OBJECTS| :: BLACKLISTED_OBJECTS[i]
  }

  /** `is_blacklisted`: membership in the blacklist set. */
  predicate IsBlacklisted(id: u32)
    ensures IsBlacklisted(id) <==> id == 179830 || id == 179831 || id == 179785 || id == 179786
  {
    id in Blacklist()
  }

  /** The blacklist holds exactly four ids. */
  lemma BlacklistSize()
    ensures Blacklist() == {179830, 179831, 179785, 179786}
    ensures |Blacklist()| == 4
  {
    var expected: set<u32> := {179830, 179831, 179785, 179786};
    assert forall id :: id in Blacklist() <==> id in expected;
    assert Blacklist() == expected;
  }

  /** Ids next to the blacklisted ones, and the extremes, are not blacklisted. */
  lemma NotBlacklistedExamples()
    ensures !IsBlacklisted(0) && !IsBlacklisted(1)
    ensures !IsBlacklisted(179829) && !IsBlacklisted(179832)
    ensures !IsBlacklisted(U32_MAX)
  {
  }
}
