/**
 * The pieces of the puzzle (cube.py, class Cubie): integer positions in the
 * lattice {-1, 0, 1}^3, the six outward directions that key a cubie's `faces`
 * dictionary, the six sticker colours, and the cubie record itself.
 */
module Geometry {

  /** The six outward directions; cube.py writes them "x+", "x-", "y+", "y-", "z+", "z-". */
  datatype Direction = XPlus | XMinus | YPlus | YMinus | ZPlus | ZMinus

  /** The six sticker colours; cube.py writes them "G", "B", "W", "Y", "R", "O". */
  datatype Colour = Green | Blue | White | Yellow | Red | Orange

  /** A position vector (x, y, z); on the puzzle each coordinate is -1, 0 or 1. */
  datatype Position = Position(x: int, y: int, z: int)

  /** One piece: its absolute position and a mapping from outward direction to colour. */
  datatype Cubie = Cubie(position: Position, faces: map<Direction, Colour>)

  const AllDirections: set<Direction> := {XPlus, XMinus, YPlus, YMinus, ZPlus, ZMinus}

  /** The axis a direction lies on, as the axis letter the move table uses. */
  function AxisOf(d: Direction): char
  {
    match d
    case XPlus | XMinus => 'x'
    case YPlus | YMinus => 'y'
    case ZPlus | ZMinus => 'z'
  }

  /** +1 for the "+" directions, -1 for the "-" ones. */
  function SignOf(d: Direction): int
  {
    match d
    case XPlus | YPlus | ZPlus => 1
    case XMinus | YMinus | ZMinus => -1
  }

  /** The dictionary key cube.py uses for a direction: the axis letter followed by the sign. */
  function DirectionName(d: Direction): (s: string)
    ensures |s| == 2 && s[0] == AxisOf(d)
    ensures s[1] == (if SignOf(d) == 1 then '+' else '-')
  {
    match d
    case XPlus => "x+"
    case XMinus => "x-"
    case YPlus => "y+"
    case YMinus => "y-"
    case ZPlus => "z+"
    case ZMinus => "z-"
  }

  /** The one-letter string cube.py uses for a colour. */
  function ColourLetter(c: Colour): char
  {
    match c
    case Green => 'G'
    case Blue => 'B'
    case White => 'W'
    case Yellow => 'Y'
    case Red => 'R'
    case Orange => 'O'
  }

  predicate IsAxis(a: char)
  {
    a == 'x' || a == 'y' || a == 'z'
  }

  /** The component of `p` along axis `a`. */
  function Coordinate(p: Position, a: char): int
    requires IsAxis(a)
  {
    if a == 'x' then p.x else if a == 'y' then p.y else p.z
  }

  predicate InLattice(p: Position)
  {
    -1 <= p.x <= 1 && -1 <= p.y <= 1 && -1 <= p.z <= 1
  }

  predicate IsOrigin(p: Position)
  {
    p.x == 0 && p.y == 0 && p.z == 0
  }

  /** A position a piece can occupy: in the lattice, but not the (absent) core. */
  predicate ValidPosition(p: Position)
  {
    InLattice(p) && !IsOrigin(p)
  }

  /** Python's ordering of the tuples (x, y, z): lexicographic, strict. */
  predicate LexLess(p: Position, q: Position)
  {
    p.x < q.x || (p.x == q.x && (p.y < q.y || (p.y == q.y && p.z < q.z)))
  }

  /** The outward directions of a piece at `p`: the direction whose sign is the coordinate's, on each axis where it is non-zero. */
  function FaceKeys(p: Position): set<Direction>
  {
    set d | d in AllDirections && Coordinate(p, AxisOf(d)) == SignOf(d)
  }

  /** How many coordinates of `p` are non-zero: 1 for a centre, 2 for an edge, 3 for a corner. */
  function NonZeroCount(p: Position): nat
  {
    (if p.x != 0 then 1 else 0) + (if p.y != 0 then 1 else 0) + (if p.z != 0 then 1 else 0)
  }

  /** The per-piece invariant: a valid position and exactly the face keys that position calls for. */
  predicate WellFormedCubie(c: Cubie)
  {
    ValidPosition(c.position) && c.faces.Keys == FaceKeys(c.position)
  }

  /** The six direction names are distinct, so the enumeration loses nothing of the string keys. */
  lemma DirectionNameInjective(d: Direction, e: Direction)
    ensures DirectionName(d) == DirectionName(e) <==> d == e
  {
    if DirectionName(d) == DirectionName(e) {
      assert DirectionName(d)[0] == DirectionName(e)[0];
      assert DirectionName(d)[1] == DirectionName(e)[1];
    }
  }

  /** The six colour letters are distinct. */
  lemma ColourLetterInjective(c: Colour, k: Colour)
    ensures ColourLetter(c) == ColourLetter(k) <==> c == k
  {
  }

  /** A piece has a key on an axis exactly when its coordinate there is non-zero, and the key's sign is that coordinate. */
  lemma FaceKeysNonZero(p: Position, d: Direction)
    ensures d in FaceKeys(p) <==> Coordinate(p, AxisOf(d)) != 0 && SignOf(d) == Coordinate(p, AxisOf(d))
  {
  }

  /** At most one key per axis: a piece never faces both ways along an axis. */
  lemma FaceKeysOnePerAxis(p: Position, d: Direction, e: Direction)
    requires d in FaceKeys(p) && e in FaceKeys(p) && AxisOf(d) == AxisOf(e)
    ensures d == e
  {
  }

  /** The face keys of `p`, axis by axis: at most one direction from each of the three axes. */
  lemma FaceKeysByAxis(p: Position)
    ensures FaceKeys(p) == AxisKeys(p.x, XPlus, XMinus) + AxisKeys(p.y, YPlus, YMinus) + AxisKeys(p.z, ZPlus, ZMinus)
  {
    forall d ensures d in FaceKeys(p) <==> d in AxisKeys(p.x, XPlus, XMinus) + AxisKeys(p.y, YPlus, YMinus) + AxisKeys(p.z, ZPlus, ZMinus) {
      assert d in FaceKeys(p) <==> Coordinate(p, AxisOf(d)) == SignOf(d);
    }
  }

  /** Inside the lattice, the number of face keys is the number of non-zero coordinates. */
  lemma FaceKeysCount(p: Position)
    requires InLattice(p)
    ensures |FaceKeys(p)| == NonZeroCount(p)
  {
    var xs := AxisKeys(p.x, XPlus, XMinus);
    var ys := AxisKeys(p.y, YPlus, YMinus);
    var zs := AxisKeys(p.z, ZPlus, ZMinus);
    FaceKeysByAxis(p);
    AxisKeysCount(p.x, XPlus, XMinus);
    AxisKeysCount(p.y, YPlus, YMinus);
    AxisKeysCount(p.z, ZPlus, ZMinus);
    DisjointUnionCount(xs, ys);
    DisjointUnionCount(xs + ys, zs);
  }

  /** The key a piece has on one axis: `plus` at coordinate 1, `minus` at -1, none otherwise. */
  function AxisKeys(c: int, plus: Direction, minus: Direction): set<Direction>
  {
    if c == 1 then {plus} else if c == -1 then {minus} else {}
  }

  lemma AxisKeysCount(c: int, plus: Direction, minus: Direction)
    ensures |AxisKeys(c, plus, minus)| == if c == 1 || c == -1 then 1 else 0
  {
  }

  lemma DisjointUnionCount<T>(a: set<T>, b: set<T>)
    requires a !! b
    ensures |a + b| == |a| + |b|
  {
    assert a * b == {};
  }
}
