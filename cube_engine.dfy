/**
 * The `Cube` object of cube.py: its list of cubies, filled in place by
 * `build_solved`, its move table, and `parse_sequence`, which walks a move
 * string and hands each token's table entry to `rotate`.
 */
module CubeEngine {
  import opened Geometry
  import opened Moves
  import opened Tokens
  import opened SolvedState
  import Parsing

  class Cube {
    /** `self.cubies`: the pieces, in the order `build_solved` appended them. */
    var cubies: seq<Cubie>
    /** `self.MOVE_MAP`. */
    var moveMap: map<string, seq<Descriptor>>

    /** 26 well-formed cubies at distinct positions, and the move table as written. */
    ghost predicate Valid()
      reads this
    {
      WellFormedCubies(cubies) && moveMap == MoveMap()
    }

    /** `Cube()`: start with no cubies, build the solved cube, then install the move table. */
    constructor()
      ensures cubies == SolvedCubies() && moveMap == MoveMap()
      ensures Valid()
    {
      cubies := [];
      moveMap := map[];
      new;
      BuildSolved();
      EmptyConcat(SolvedCubies());
      moveMap := MoveMap();
      SolvedWellFormed();
    }

    /**
     * `build_solved`: for x, y, z each running through -1, 0, 1, skip the core and append a
     * cubie whose faces hold the colour of each outward direction its position calls for.
     */
    method BuildSolved()
      modifies this`cubies
      ensures cubies == old(cubies) + SolvedCubies()
    {
      AppendSlabs(2);
      BuiltIsSolved();
    }

    /** The outer loop of `build_solved`, run for x = -1 up to (not including) `end`. */
    method AppendSlabs(end: int)
      requires -1 <= end <= 2
      modifies this`cubies
      ensures cubies == old(cubies) + Slabs(end)
    {
      for x := -1 to end
        invariant cubies == old(cubies) + Slabs(x)
      {
        AppendSlab(x);
        SlabsStep(x);
        ConcatAssoc(old(cubies), Slabs(x), Rows(x, 2));
      }
    }

    /** The middle loop of `build_solved` for one value of x. */
    method AppendSlab(x: int)
      requires -1 <= x <= 1
      modifies this`cubies
      ensures cubies == old(cubies) + Rows(x, 2)
    {
      for y := -1 to 2
        invariant cubies == old(cubies) + Rows(x, y)
      {
        AppendRow(x, y);
        RowsStep(x, y);
        ConcatAssoc(old(cubies), Rows(x, y), Cells(Position(x, y, 2)));
      }
    }

    /** The innermost loop of `build_solved` for one value of (x, y). */
    method AppendRow(x: int, y: int)
      requires -1 <= x <= 1 && -1 <= y <= 1
      modifies this`cubies
      ensures cubies == old(cubies) + Cells(Position(x, y, 2))
    {
      for z := -1 to 2
        invariant cubies == old(cubies) + Cells(Position(x, y, z))
      {
        CellsStep(x, y, z);
        if x == 0 && y == 0 && z == 0 {
          continue;
        }
        var faces := FacesFor(x, y, z);
        ConcatAssoc(old(cubies), Cells(Position(x, y, z)), [Cubie(Position(x, y, z), faces)]);
        cubies := cubies + [Cubie(Position(x, y, z), faces)];
      }
    }

    /**
     * `parse_sequence`: split the string, then for each token in turn look it up (a missing
     * token raises `KeyError` and ends the parse), skip an empty entry, and otherwise hand the
     * entry to `rotate`. The result lists the entries handed over.
     */
    method ParseSequence(sequence: string) returns (outcome: Parsing.ParseOutcome)
      requires Valid()
      ensures outcome == Parsing.ParseSequence(moveMap, sequence)
      ensures outcome == Parsing.ParseSequence(MoveMap(), sequence)
    {
      var moves := Split(sequence);
      var rotations: seq<seq<Descriptor>> := [];
      var i := 0;
      while i < |moves|
        invariant 0 <= i <= |moves|
        invariant Parsing.Expand(moveMap, moves[..i]) == Parsing.Completed(rotations)
      {
        var move := moves[i];
        assert moves[..i + 1][..i] == moves[..i];
        if move !in moveMap {
          outcome := Parsing.KeyError(rotations, move);
          Parsing.ExpandStopsAtKeyError(moveMap, moves[..i + 1], moves[i + 1..]);
          assert moves[..i + 1] + moves[i + 1..] == moves;
          return;
        }
        if moveMap[move] == [] {
          i := i + 1;
          continue;
        }
        rotations := rotations + [moveMap[move]];
        i := i + 1;
      }
      assert moves[..i] == moves;
      outcome := Parsing.Completed(rotations);
    }
  }

  /** The faces dictionary the loop body of `build_solved` fills in by six independent tests on the coordinates. */
  method FacesFor(x: int, y: int, z: int) returns (faces: map<Direction, Colour>)
    ensures faces == SolvedFaces(Position(x, y, z))
  {
    faces := map[];
    if x == 1 { faces := faces[XPlus := Green]; }
    if x == -1 { faces := faces[XMinus := Blue]; }
    if y == 1 { faces := faces[YPlus := White]; }
    if y == -1 { faces := faces[YMinus := Yellow]; }
    if z == 1 { faces := faces[ZPlus := Red]; }
    if z == -1 { faces := faces[ZMinus := Orange]; }
  }

  lemma EmptyConcat<T>(s: seq<T>)
    ensures [] + s == s
  {
  }

  lemma ConcatAssoc<T>(a: seq<T>, b: seq<T>, c: seq<T>)
    ensures a + b + c == a + (b + c)
  {
  }

}
