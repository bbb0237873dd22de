/**
 * The solved cube that `Cube.build_solved` (cube.py) assembles: which cubies it
 * appends, in which order, with which stickers; and what that arrangement
 * guarantees (26 distinct positions in ascending order, face keys determined by
 * position, 54 stickers with 9 of each colour).
 */
module SolvedState {
  import opened Geometry

  /** The fixed colour scheme: the colour of a solved sticker depends on its direction alone. */
  function SolvedColour(d: Direction): Colour
  {
    match d
    case XPlus => Green
    case XMinus => Blue
    case YPlus => White
    case YMinus => Yellow
    case ZPlus => Red
    case ZMinus => Orange
  }

  /**
   * The stickers of a solved cubie at `p`, assembled as `build_solved` does it: six independent
   * tests on the coordinates, each adding one direction with its colour.
   */
  function SolvedFaces(p: Position): map<Direction, Colour>
  {
    var f0: map<Direction, Colour> := map[];
    var f1 := if p.x == 1 then f0[XPlus := Green] else f0;
    var f2 := if p.x == -1 then f1[XMinus := Blue] else f1;
    var f3 := if p.y == 1 then f2[YPlus := White] else f2;
    var f4 := if p.y == -1 then f3[YMinus := Yellow] else f3;
    var f5 := if p.z == 1 then f4[ZPlus := Red] else f4;
    if p.z == -1 then f5[ZMinus := Orange] else f5
  }

  /** The solved faces hold exactly the face keys of `p`, each with the colour of its direction. */
  lemma SolvedFacesKeys(p: Position)
    ensures SolvedFaces(p).Keys == FaceKeys(p)
    ensures forall d | d in SolvedFaces(p) :: SolvedFaces(p)[d] == SolvedColour(d)
  {
    assert forall d :: d in SolvedFaces(p) <==> d in FaceKeys(p);
  }

  function SolvedCubie(p: Position): Cubie
  {
    Cubie(p, SolvedFaces(p))
  }

  /** What the innermost loop appends for one lattice point: nothing at the core, else its solved cubie. */
  function CellAt(p: Position): seq<Cubie>
  {
    if IsOrigin(p) then [] else [SolvedCubie(p)]
  }

  /**
   * The cubies the innermost loop appends in the row of `end` for the points before it:
   * (end.x, end.y, -1), ..., (end.x, end.y, end.z - 1).
   */
  function Cells(end: Position): seq<Cubie>
    decreases end.z + 1
  {
    if end.z <= -1 then [] else Cells(Position(end.x, end.y, end.z - 1)) + CellAt(Position(end.x, end.y, end.z - 1))
  }

  /** The cubies the middle loop appends for the rows (x, -1), ..., (x, y - 1). */
  function Rows(x: int, y: int): seq<Cubie>
    decreases y + 1
  {
    if y <= -1 then [] else Rows(x, y - 1) + Cells(Position(x, y - 1, 2))
  }

  /** The cubies the outer loop appends for the slabs -1, ..., x - 1. */
  function Slabs(x: int): seq<Cubie>
    decreases x + 1
  {
    if x <= -1 then [] else Slabs(x - 1) + Rows(x - 1, 2)
  }

  /**
   * The solved cube: the solved cubie of every non-core lattice point, in the order (x, y, z)
   * ascending. `BuiltIsSolved` shows that this is exactly what `build_solved` appends.
   */
  function SolvedCubies(): seq<Cubie>
  {
    seq(26, i => SolvedCubie(PositionAt(i)))
  }

  /**
   * The `i`-th non-core lattice point in (x, y, z) order: lattice points are numbered 0..26 with
   * z fastest, and the core, number 13, is skipped.
   */
  function PositionAt(i: int): Position
  {
    var k := if i < 13 then i else i + 1;
    Position(k / 9 - 1, (k / 3) % 3 - 1, k % 3 - 1)
  }

  /**
   * How many cubies `build_solved` has appended when its loops reach (x, y, z): the lattice points
   * before it in (x, y, z) order, less the core if it is among them.
   */
  function Appended(x: int, y: int, z: int): int
  {
    var k := 9 * (x + 1) + 3 * (y + 1) + (z + 1);
    if k <= 13 then k else k - 1
  }

  /** `PositionAt` numbers the valid positions 0..25 in the order `Appended` counts them. */
  lemma AppendedPosition(p: Position)
    requires ValidPosition(p)
    ensures 0 <= Appended(p.x, p.y, p.z) < 26
    ensures PositionAt(Appended(p.x, p.y, p.z)) == p
  {
  }

  /** Positions strictly ascending in Python's tuple order. */
  predicate Ascending(s: seq<Cubie>)
  {
    forall i, j | 0 <= i < j < |s| :: LexLess(s[i].position, s[j].position)
  }

  /** The global invariant on a cube's pieces: 26 well-formed cubies at pairwise distinct positions. */
  predicate WellFormedCubies(s: seq<Cubie>)
  {
    |s| == 26 &&
    (forall i | 0 <= i < |s| :: WellFormedCubie(s[i])) &&
    (forall i, j | 0 <= i < j < |s| :: s[i].position != s[j].position)
  }

  /** Every element of `s` is the solved cubie of its own valid position. */
  predicate AllSolved(s: seq<Cubie>)
  {
    forall c | c in s :: ValidPosition(c.position) && c == SolvedCubie(c.position)
  }

  lemma {:induction false} AscendingConcat(a: seq<Cubie>, b: seq<Cubie>)
    requires Ascending(a) && Ascending(b)
    requires forall c, e | c in a && e in b :: LexLess(c.position, e.position)
    ensures Ascending(a + b)
  {
    forall i, j | 0 <= i < j < |a + b| ensures LexLess((a + b)[i].position, (a + b)[j].position) {
      if j < |a| {
        assert (a + b)[i] == a[i] && (a + b)[j] == a[j];
      } else if i < |a| {
        assert (a + b)[i] in a && (a + b)[j] in b;
      } else {
        assert (a + b)[i] == b[i - |a|] && (a + b)[j] == b[j - |a|];
      }
    }
  }

  /** One row of the innermost loop: its length, its positions, their order, and that every point of the row is covered. */
  lemma {:induction false} CellsShape(x: int, y: int, z: int)
    requires -1 <= x <= 1 && -1 <= y <= 1 && -1 <= z <= 2
    ensures AllSolved(Cells(Position(x, y, z))) && Ascending(Cells(Position(x, y, z)))
    ensures forall c | c in Cells(Position(x, y, z)) :: c.position.x == x && c.position.y == y && c.position.z < z
    ensures forall p | ValidPosition(p) && p.x == x && p.y == y && p.z < z :: SolvedCubie(p) in Cells(Position(x, y, z))
  {
    if z > -1 {
      CellsShape(x, y, z - 1);
      var p := Position(x, y, z - 1);
      AscendingConcat(Cells(Position(x, y, z - 1)), CellAt(p));
      forall q | ValidPosition(q) && q.x == x && q.y == y && q.z < z
        ensures SolvedCubie(q) in Cells(Position(x, y, z))
      {
        if q.z == z - 1 {
          assert q == p && CellAt(p) == [SolvedCubie(q)];
        }
      }
    }
  }

  /** The rows (x, -1), ..., (x, y - 1) of the middle loop. */
  lemma {:induction false} RowsShape(x: int, y: int)
    requires -1 <= x <= 1 && -1 <= y <= 2
    ensures AllSolved(Rows(x, y)) && Ascending(Rows(x, y))
    ensures forall c | c in Rows(x, y) :: c.position.x == x && c.position.y < y
    ensures forall p | ValidPosition(p) && p.x == x && p.y < y :: SolvedCubie(p) in Rows(x, y)
  {
    if y > -1 {
      RowsShape(x, y - 1);
      CellsShape(x, y - 1, 2);
      AscendingConcat(Rows(x, y - 1), Cells(Position(x, y - 1, 2)));
    }
  }

  /** The slabs -1, ..., x - 1: solved cubies at valid positions with x-coordinate below `x`, ascending. */
  lemma {:induction false} SlabsOrdered(x: int)
    requires -1 <= x <= 2
    ensures AllSolved(Slabs(x)) && Ascending(Slabs(x))
    ensures forall c | c in Slabs(x) :: c.position.x < x
  {
    if x > -1 {
      SlabsOrdered(x - 1);
      RowsShape(x - 1, 2);
      AscendingConcat(Slabs(x - 1), Rows(x - 1, 2));
    }
  }

  /** The slabs -1, ..., x - 1 cover every valid position with x-coordinate below `x`. */
  lemma {:induction false} SlabsComplete(x: int)
    requires -1 <= x <= 2
    ensures forall p | ValidPosition(p) && p.x < x :: SolvedCubie(p) in Slabs(x)
  {
    if x > -1 {
      SlabsComplete(x - 1);
      RowsShape(x - 1, 2);
    }
  }

  /** Slicing facts about sequences, used to follow the loops along the solved cube. */
  lemma SliceSnoc<T>(s: seq<T>, a: int, b: int)
    requires 0 <= a <= b < |s|
    ensures s[a..b + 1] == s[a..b] + [s[b]]
  {
  }

  lemma SliceAll<T>(s: seq<T>)
    ensures s[0..|s|] == s
  {
  }

  lemma SliceConcat<T>(s: seq<T>, a: int, b: int, c: int)
    requires 0 <= a <= b <= c <= |s|
    ensures s[a..c] == s[a..b] + s[b..c]
  {
  }

  /** The points (x, y, -1), ..., (x, y, z - 1) of a row append the next stretch of the solved cube. */
  lemma {:induction false} CellsPrefix(x: int, y: int, z: int)
    requires -1 <= x <= 1 && -1 <= y <= 1 && -1 <= z <= 2
    ensures 0 <= Appended(x, y, -1) <= Appended(x, y, z) <= 26
    ensures Cells(Position(x, y, z)) == SolvedCubies()[Appended(x, y, -1)..Appended(x, y, z)]
  {
    if z > -1 {
      CellsPrefix(x, y, z - 1);
      var p := Position(x, y, z - 1);
      var s := SolvedCubies();
      if IsOrigin(p) {
        assert Appended(x, y, z) == Appended(x, y, z - 1);
      } else {
        AppendedPosition(p);
        SliceSnoc(s, Appended(x, y, -1), Appended(x, y, z - 1));
      }
    }
  }

  /** The rows (x, -1), ..., (x, y - 1) of a slab append the next stretch of the solved cube. */
  lemma {:induction false} RowsPrefix(x: int, y: int)
    requires -1 <= x <= 1 && -1 <= y <= 2
    ensures 0 <= Appended(x, -1, -1) <= Appended(x, y, -1) <= 26
    ensures Rows(x, y) == SolvedCubies()[Appended(x, -1, -1)..Appended(x, y, -1)]
  {
    if y > -1 {
      RowsPrefix(x, y - 1);
      CellsPrefix(x, y - 1, 2);
      assert Appended(x, y - 1, 2) == Appended(x, y, -1);
      var s := SolvedCubies();
      SliceConcat(s, Appended(x, -1, -1), Appended(x, y - 1, -1), Appended(x, y, -1));
      assert Rows(x, y) == Rows(x, y - 1) + Cells(Position(x, y - 1, 2));
    }
  }

  /** The slabs -1, ..., x - 1 append a prefix of the solved cube. */
  lemma {:induction false} SlabsPrefix(x: int)
    requires -1 <= x <= 2
    ensures 0 <= Appended(x, -1, -1) <= 26
    ensures Slabs(x) == SolvedCubies()[0..Appended(x, -1, -1)]
  {
    if x > -1 {
      SlabsPrefix(x - 1);
      RowsPrefix(x - 1, 2);
      assert Appended(x - 1, 2, -1) == Appended(x, -1, -1);
      var s := SolvedCubies();
      SliceConcat(s, 0, Appended(x - 1, -1, -1), Appended(x, -1, -1));
      assert Slabs(x) == Slabs(x - 1) + Rows(x - 1, 2);
    }
  }

  /**
   * `build_solved` appends exactly the solved cube: 26 cubies, the 27 lattice points less the
   * core, in the order the three nested loops visit them.
   */
  lemma BuiltIsSolved()
    ensures Slabs(2) == SolvedCubies()
  {
    SlabsPrefix(2);
    SliceAll(SolvedCubies());
  }

  /**
   * Every cubie of the solved cube sits at a valid (in-lattice, non-core) position and is the
   * solved cubie of that position; the positions ascend strictly in (x, y, z) order, the order
   * the three nested loops visit them.
   */
  lemma SolvedOrdered()
    ensures AllSolved(SolvedCubies())
    ensures Ascending(SolvedCubies())
  {
    BuiltIsSolved();
    SlabsOrdered(2);
  }

  /** No two cubies of the solved cube share a position. */
  lemma SolvedDistinct()
    ensures forall i, j | 0 <= i < j < |SolvedCubies()| :: SolvedCubies()[i].position != SolvedCubies()[j].position
  {
    BuiltIsSolved();
    SlabsOrdered(2);
  }

  /** Every one of the 26 valid positions is occupied in the solved cube. */
  lemma SolvedComplete()
    ensures forall p | ValidPosition(p) :: SolvedCubie(p) in SolvedCubies()
  {
    BuiltIsSolved();
    SlabsComplete(2);
  }

  /** The solved cubie at `p` carries exactly the face keys its position calls for. */
  lemma SolvedCubieWellFormed(p: Position)
    requires ValidPosition(p)
    ensures WellFormedCubie(SolvedCubie(p))
    ensures |SolvedCubie(p).faces| == NonZeroCount(p)
  {
    FaceKeysCount(p);
    SolvedFacesKeys(p);
  }

  /**
   * The solved cube satisfies the global invariant on the pieces: 26 cubies, each at a valid
   * position with exactly the face keys {axis+sign : that coordinate is non-zero}, at pairwise
   * distinct positions.
   */
  lemma SolvedWellFormed()
    ensures WellFormedCubies(SolvedCubies())
  {
    BuiltIsSolved();
    SolvedOrdered();
    SolvedDistinct();
    AllSolvedWellFormed(SolvedCubies());
  }

  /** Solved cubies at valid positions are well formed. */
  lemma AllSolvedWellFormed(s: seq<Cubie>)
    requires AllSolved(s)
    ensures forall i | 0 <= i < |s| :: WellFormedCubie(s[i])
  {
    forall i | 0 <= i < |s| ensures WellFormedCubie(s[i]) {
      assert s[i] in s;
      SolvedCubieWellFormed(s[i].position);
    }
  }

  /** In the solved cube the colour of every sticker is the colour of its direction. */
  lemma SolvedColours()
    ensures forall c, d | c in SolvedCubies() && d in c.faces :: c.faces[d] == SolvedColour(d)
  {
    SolvedOrdered();
    AllSolvedColours(SolvedCubies());
  }

  lemma AllSolvedColours(s: seq<Cubie>)
    requires AllSolved(s)
    ensures forall c, d | c in s && d in c.faces :: c.faces[d] == SolvedColour(d)
  {
    forall c | c in s ensures forall d | d in c.faces :: c.faces[d] == SolvedColour(d) {
      SolvedFacesKeys(c.position);
    }
  }

  /** One pass of the innermost loop appends the cell of (x, y, z). */
  lemma CellsStep(x: int, y: int, z: int)
    requires -1 <= z
    ensures Cells(Position(x, y, z + 1)) == Cells(Position(x, y, z)) + CellAt(Position(x, y, z))
  {
  }

  /** One pass of the middle loop appends the row (x, y). */
  lemma RowsStep(x: int, y: int)
    requires -1 <= y
    ensures Rows(x, y + 1) == Rows(x, y) + Cells(Position(x, y, 2))
  {
  }

  /** One pass of the outer loop appends the slab x. */
  lemma SlabsStep(x: int)
    requires -1 <= x
    ensures Slabs(x + 1) == Slabs(x) + Rows(x, 2)
  {
  }


  /** `f` summed over the cubies of `s`. */
  function Total(s: seq<Cubie>, f: Cubie -> nat): nat
  {
    if s == [] then 0 else Total(s[..|s| - 1], f) + f(s[|s| - 1])
  }

  lemma {:induction false} TotalConcat(a: seq<Cubie>, b: seq<Cubie>, f: Cubie -> nat)
    ensures Total(a + b, f) == Total(a, f) + Total(b, f)
  {
    if b == [] {
      assert a + b == a;
    } else {
      TotalConcat(a, b[..|b| - 1], f);
      assert (a + b)[..|a + b| - 1] == a + b[..|b| - 1];
    }
  }

  /** Pieces with exactly `n` stickers. */
  function HasKeys(n: nat): Cubie -> nat
  {
    (c: Cubie) => if |c.faces| == n then 1 else 0
  }

  /** Stickers of a piece. */
  function Stickers(): Cubie -> nat
  {
    (c: Cubie) => |c.faces|
  }

  /** Stickers of colour `k` on a piece. */
  function StickersOf(k: Colour): Cubie -> nat
  {
    (c: Cubie) => |set d | d in c.faces && c.faces[d] == k|
  }

  /** The direction whose solved stickers have colour `k`: the inverse of the colour scheme. */
  function ColourDirection(k: Colour): (d: Direction)
    ensures SolvedColour(d) == k
    ensures forall e | SolvedColour(e) == k :: e == d
  {
    match k
    case Green => XPlus
    case Blue => XMinus
    case White => YPlus
    case Yellow => YMinus
    case Red => ZPlus
    case Orange => ZMinus
  }

  /** 1 when `p` lies on the face that direction `d` points at, else 0. */
  function OnFace(p: Position, d: Direction): nat
  {
    if Coordinate(p, AxisOf(d)) == SignOf(d) then 1 else 0
  }

  /** A solved cubie carries one sticker of colour `k` exactly when it lies on the face of `k`. */
  lemma SolvedCubieColour(p: Position, k: Colour)
    requires ValidPosition(p)
    ensures StickersOf(k)(SolvedCubie(p)) == OnFace(p, ColourDirection(k))
  {
    var c := SolvedCubie(p);
    var d := ColourDirection(k);
    SolvedFacesKeys(p);
    var ks := set e | e in c.faces && c.faces[e] == k;
    if Coordinate(p, AxisOf(d)) == SignOf(d) {
      assert ks == {d};
    } else {
      assert ks == {};
    }
  }

  /** `f` at the lattice point `p` of the solved cube: nothing at the core. */
  function PointTotal(p: Position, f: Cubie -> nat): nat
  {
    if IsOrigin(p) then 0 else f(SolvedCubie(p))
  }

  /** `f` summed over the points `Cells(end)` visits. */
  function CellsTotal(end: Position, f: Cubie -> nat): nat
    decreases end.z + 1
  {
    if end.z <= -1 then 0
    else CellsTotal(Position(end.x, end.y, end.z - 1), f) + PointTotal(Position(end.x, end.y, end.z - 1), f)
  }

  /** `f` summed over the points `Rows(x, y)` visits. */
  function RowsTotal(x: int, y: int, f: Cubie -> nat): nat
    decreases y + 1
  {
    if y <= -1 then 0 else RowsTotal(x, y - 1, f) + CellsTotal(Position(x, y - 1, 2), f)
  }

  /** `f` summed over the points `Slabs(x)` visits. */
  function SlabsTotal(x: int, f: Cubie -> nat): nat
    decreases x + 1
  {
    if x <= -1 then 0 else SlabsTotal(x - 1, f) + RowsTotal(x - 1, 2, f)
  }

  lemma PointSum(p: Position, f: Cubie -> nat)
    ensures Total(CellAt(p), f) == PointTotal(p, f)
  {
    if !IsOrigin(p) {
      assert CellAt(p)[..0] == [];
    }
  }

  lemma {:induction false} CellsSum(x: int, y: int, z: int, f: Cubie -> nat)
    ensures Total(Cells(Position(x, y, z)), f) == CellsTotal(Position(x, y, z), f)
  {
    if z > -1 {
      CellsSum(x, y, z - 1, f);
      CellsStep(x, y, z - 1);
      TotalConcat(Cells(Position(x, y, z - 1)), CellAt(Position(x, y, z - 1)), f);
      PointSum(Position(x, y, z - 1), f);
    }
  }

  lemma {:induction false} RowsSum(x: int, y: int, f: Cubie -> nat)
    ensures Total(Rows(x, y), f) == RowsTotal(x, y, f)
  {
    if y > -1 {
      RowsSum(x, y - 1, f);
      CellsSum(x, y - 1, 2, f);
      RowsStep(x, y - 1);
      TotalConcat(Rows(x, y - 1), Cells(Position(x, y - 1, 2)), f);
    }
  }

  lemma {:induction false} SlabsSum(x: int, f: Cubie -> nat)
    ensures Total(Slabs(x), f) == SlabsTotal(x, f)
  {
    if x > -1 {
      SlabsSum(x - 1, f);
      RowsSum(x - 1, 2, f);
      SlabsStep(x - 1);
      TotalConcat(Slabs(x - 1), Rows(x - 1, 2), f);
    }
  }

  /** `f` over the row (x, y) is its value at the row's three points. */
  lemma RowUnfold(x: int, y: int, f: Cubie -> nat)
    ensures CellsTotal(Position(x, y, 2), f) ==
      PointTotal(Position(x, y, -1), f) + PointTotal(Position(x, y, 0), f) + PointTotal(Position(x, y, 1), f)
  {
    assert CellsTotal(Position(x, y, 1), f) == CellsTotal(Position(x, y, 0), f) + PointTotal(Position(x, y, 0), f);
  }

  /** `f` over the slab x is its value on the slab's three rows. */
  lemma SlabUnfold(x: int, f: Cubie -> nat)
    ensures RowsTotal(x, 2, f) == CellsTotal(Position(x, -1, 2), f) + CellsTotal(Position(x, 0, 2), f) + CellsTotal(Position(x, 1, 2), f)
  {
    assert RowsTotal(x, 1, f) == RowsTotal(x, 0, f) + CellsTotal(Position(x, 0, 2), f);
  }

  /**
   * `f` summed over the solved cube, from its values on the three slabs: the slabs are passed as a
   * property of a symbolic `x`, so that nothing forces the solver to evaluate `f` point by point.
   */
  lemma SolvedTotal(f: Cubie -> nat, lo: int, mid: int, hi: int)
    requires forall x | -1 <= x <= 1 :: RowsTotal(x, 2, f) == if x == -1 then lo else if x == 0 then mid else hi
    ensures Total(SolvedCubies(), f) == lo + mid + hi
  {
    BuiltIsSolved();
    SlabsSum(2, f);
    var s1 := SlabsTotal(1, f);
    assert SlabsTotal(2, f) == s1 + RowsTotal(1, 2, f);
    assert s1 == SlabsTotal(0, f) + RowsTotal(0, 2, f);
  }

  /** `f` counts, on every solved piece, 1 when it has `n` face keys and 0 otherwise. */
  ghost predicate CountsKeys(f: Cubie -> nat, n: nat)
  {
    forall p | ValidPosition(p) :: f(SolvedCubie(p)) == if NonZeroCount(p) == n then 1 else 0
  }

  /** `f` counts, on every solved piece, one per non-zero coordinate of its position. */
  ghost predicate CountsStickers(f: Cubie -> nat)
  {
    forall p | ValidPosition(p) :: f(SolvedCubie(p)) == NonZeroCount(p)
  }

  /** `f` counts, on every solved piece, 1 when it lies on the face direction `d` points at and 0 otherwise. */
  ghost predicate CountsFace(f: Cubie -> nat, d: Direction)
  {
    forall p | ValidPosition(p) :: f(SolvedCubie(p)) == OnFace(p, d)
  }

  /** A solved piece has `n` stickers exactly when its position has `n` non-zero coordinates. */
  lemma KeysCounted(n: nat)
    ensures CountsKeys(HasKeys(n), n)
  {
    forall p | ValidPosition(p) ensures HasKeys(n)(SolvedCubie(p)) == if NonZeroCount(p) == n then 1 else 0 {
      SolvedCubieWellFormed(p);
    }
  }

  /** A solved piece carries one sticker per non-zero coordinate of its position. */
  lemma StickersCounted()
    ensures CountsStickers(Stickers())
  {
    forall p | ValidPosition(p) ensures Stickers()(SolvedCubie(p)) == NonZeroCount(p) {
      SolvedCubieWellFormed(p);
    }
  }

  /** A solved piece carries a sticker of colour `k` exactly when it lies on the face of `k`'s direction. */
  lemma ColourCounted(k: Colour)
    ensures CountsFace(StickersOf(k), ColourDirection(k))
  {
    forall p | ValidPosition(p) ensures StickersOf(k)(SolvedCubie(p)) == OnFace(p, ColourDirection(k)) {
      SolvedCubieColour(p, k);
    }
  }

  /**
   * Along a line of three points whose two fixed coordinates have `m` non-zero values, how many
   * points other than the core have exactly `n` non-zero coordinates: the middle point has `m`,
   * the two ends have `m + 1`.
   */
  function LineKinds(m: int, n: int): int
  {
    (if m == n && m > 0 then 1 else 0) + (if m + 1 == n then 2 else 0)
  }

  lemma RowKinds(x: int, y: int, n: nat, f: Cubie -> nat)
    requires -1 <= x <= 1 && -1 <= y <= 1 && CountsKeys(f, n)
    ensures CellsTotal(Position(x, y, 2), f) == LineKinds(NonZeroCount(Position(x, y, 0)), n)
  {
    RowUnfold(x, y, f);
  }

  /** How many of `centres`, `edges` and `corners` have exactly `n` face keys. */
  function KindsIn(centres: int, edges: int, corners: int, n: int): int
  {
    if n == 1 then centres else if n == 2 then edges else if n == 3 then corners else 0
  }

  /** An outer slab holds 1 centre, 4 edges and 4 corners; the middle slab 4 centres and 4 edges. */
  lemma SlabKinds(x: int, n: nat, f: Cubie -> nat)
    requires -1 <= x <= 1 && CountsKeys(f, n)
    ensures RowsTotal(x, 2, f) == if x == 0 then KindsIn(4, 4, 0, n) else KindsIn(1, 4, 4, n)
  {
    SlabUnfold(x, f);
    RowKinds(x, -1, n, f);
    RowKinds(x, 0, n, f);
    RowKinds(x, 1, n, f);
    var m := NonZeroCount(Position(x, 0, 0));
    assert NonZeroCount(Position(x, -1, 0)) == m + 1 == NonZeroCount(Position(x, 1, 0));
    SlabKindsSum(m, n);
  }

  /** The three rows of a slab whose own coordinate has `m` non-zero values: the middle row has `m`, the outer rows `m + 1`. */
  lemma SlabKindsSum(m: int, n: int)
    requires m == 0 || m == 1
    ensures LineKinds(m + 1, n) + LineKinds(m, n) + LineKinds(m + 1, n) == if m == 0 then KindsIn(4, 4, 0, n) else KindsIn(1, 4, 4, n)
  {
  }

  lemma LatticeKinds(n: nat, f: Cubie -> nat)
    requires CountsKeys(f, n)
    ensures Total(SolvedCubies(), f) == if n == 1 then 6 else if n == 2 then 12 else if n == 3 then 8 else 0
  {
    forall x | -1 <= x <= 1
      ensures RowsTotal(x, 2, f) == if x == -1 then KindsIn(1, 4, 4, n) else if x == 0 then KindsIn(4, 4, 0, n) else KindsIn(1, 4, 4, n)
    {
      SlabKinds(x, n, f);
    }
    SolvedTotal(f, KindsIn(1, 4, 4, n), KindsIn(4, 4, 0, n), KindsIn(1, 4, 4, n));
  }

  /** The solved cube has 6 centres (one face key), 12 edges (two) and 8 corners (three), and no other piece. */
  lemma SolvedKinds(n: nat)
    ensures Total(SolvedCubies(), HasKeys(n)) == if n == 1 then 6 else if n == 2 then 12 else if n == 3 then 8 else 0
  {
    KeysCounted(n);
    LatticeKinds(n, HasKeys(n));
  }

  /** A line of three points whose fixed coordinates have `m` non-zero values carries `3 * m + 2` stickers. */
  lemma RowStickers(x: int, y: int, f: Cubie -> nat)
    requires -1 <= x <= 1 && -1 <= y <= 1 && CountsStickers(f)
    ensures CellsTotal(Position(x, y, 2), f) == 3 * NonZeroCount(Position(x, y, 0)) + 2
  {
    RowUnfold(x, y, f);
  }

  /** An outer slab carries 21 stickers, the middle one 12. */
  lemma SlabStickers(x: int, f: Cubie -> nat)
    requires -1 <= x <= 1 && CountsStickers(f)
    ensures RowsTotal(x, 2, f) == if x == 0 then 12 else 21
  {
    SlabUnfold(x, f);
    RowStickers(x, -1, f);
    RowStickers(x, 0, f);
    RowStickers(x, 1, f);
  }

  lemma LatticeStickers(f: Cubie -> nat)
    requires CountsStickers(f)
    ensures Total(SolvedCubies(), f) == 54
  {
    forall x | -1 <= x <= 1
      ensures RowsTotal(x, 2, f) == if x == -1 then 21 else if x == 0 then 12 else 21
    {
      SlabStickers(x, f);
    }
    SolvedTotal(f, 21, 12, 21);
  }

  /** The solved cube carries 54 stickers. */
  lemma SolvedStickerTotal()
    ensures Total(SolvedCubies(), Stickers()) == 54
  {
    StickersCounted();
    LatticeStickers(Stickers());
  }

  /**
   * How many of the points (x, y, -1 .. 1) lie on the face `d` points at: the whole line when
   * the face is across x or y and the line is on it, one point when the face is across z.
   */
  function FaceLine(x: int, y: int, d: Direction): int
  {
    if AxisOf(d) == 'x' then (if x == SignOf(d) then 3 else 0)
    else if AxisOf(d) == 'y' then (if y == SignOf(d) then 3 else 0)
    else 1
  }

  lemma FaceLineSum(x: int, y: int, d: Direction)
    requires -1 <= x <= 1 && -1 <= y <= 1
    ensures OnFace(Position(x, y, -1), d) + OnFace(Position(x, y, 0), d) + OnFace(Position(x, y, 1), d) == FaceLine(x, y, d)
  {
    match d
    case XPlus =>
    case XMinus =>
    case YPlus =>
    case YMinus =>
    case ZPlus =>
    case ZMinus =>
  }

  lemma RowFace(x: int, y: int, d: Direction, f: Cubie -> nat)
    requires -1 <= x <= 1 && -1 <= y <= 1 && CountsFace(f, d)
    ensures CellsTotal(Position(x, y, 2), f) == FaceLine(x, y, d)
  {
    RowUnfold(x, y, f);
    FaceLineSum(x, y, d);
  }

  /** How many points of the slab x lie on the face `d` points at: all 9 or none for a face across x, 3 otherwise. */
  function FaceSlab(x: int, d: Direction): int
  {
    if AxisOf(d) == 'x' then (if x == SignOf(d) then 9 else 0) else 3
  }

  lemma FaceSlabSum(x: int, d: Direction)
    ensures FaceLine(x, -1, d) + FaceLine(x, 0, d) + FaceLine(x, 1, d) == FaceSlab(x, d)
  {
    match d
    case XPlus =>
    case XMinus =>
    case YPlus =>
    case YMinus =>
    case ZPlus =>
    case ZMinus =>
  }

  lemma SlabFace(x: int, d: Direction, f: Cubie -> nat)
    requires -1 <= x <= 1 && CountsFace(f, d)
    ensures RowsTotal(x, 2, f) == FaceSlab(x, d)
  {
    SlabUnfold(x, f);
    RowFace(x, -1, d, f);
    RowFace(x, 0, d, f);
    RowFace(x, 1, d, f);
    FaceSlabSum(x, d);
  }

  /** Every face is one side of the lattice: 9 points in all. */
  lemma FaceLatticeSum(d: Direction)
    ensures FaceSlab(-1, d) + FaceSlab(0, d) + FaceSlab(1, d) == 9
  {
    match d
    case XPlus =>
    case XMinus =>
    case YPlus =>
    case YMinus =>
    case ZPlus =>
    case ZMinus =>
  }

  lemma LatticeFace(d: Direction, f: Cubie -> nat)
    requires CountsFace(f, d)
    ensures Total(SolvedCubies(), f) == 9
  {
    forall x | -1 <= x <= 1
      ensures RowsTotal(x, 2, f) == if x == -1 then FaceSlab(-1, d) else if x == 0 then FaceSlab(0, d) else FaceSlab(1, d)
    {
      SlabFace(x, d, f);
    }
    SolvedTotal(f, FaceSlab(-1, d), FaceSlab(0, d), FaceSlab(1, d));
    FaceLatticeSum(d);
  }

  /** The solved cube carries 9 stickers of each colour. */
  lemma SolvedColourCount(k: Colour)
    ensures Total(SolvedCubies(), StickersOf(k)) == 9
  {
    ColourCounted(k);
    LatticeFace(ColourDirection(k), StickersOf(k));
  }
}
