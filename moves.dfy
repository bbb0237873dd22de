/**
 * The move-notation table of cube.py (the `MOVE_MAP` dictionary built in
 * `Cube.__init__`): each move name maps to the ordered list of elementary
 * layer turns `(axis, layer, direction)` that `rotate` is meant to apply.
 */
module Moves {

  /** One elementary turn: the axis letter, the layer on that axis, and 1 (quarter turn), -1 (inverse quarter turn) or 2 (half turn). */
  datatype Descriptor = Descriptor(axis: char, layer: int, direction: int)

  /** The constraints the `rotate` doc-comment puts on its arguments. */
  predicate WellFormedDescriptor(t: Descriptor)
  {
    (t.axis == 'x' || t.axis == 'y' || t.axis == 'z') &&
    -1 <= t.layer <= 1 &&
    (t.direction == 1 || t.direction == -1 || t.direction == 2)
  }

  /**
   * The dictionary literal, entry for entry and in the order written. A Dafny
   * map display, like a Python dict display, keeps the last value given for a
   * repeated key: the three "S" entries leave only the half turn, and the
   * second "X'" entry replaces the first.
   */
  function MoveMap(): map<string, seq<Descriptor>>
  {
    map[
      "R"  := [Descriptor('x', 1, 1)],
      "R'" := [Descriptor('x', 1, -1)],
      "R2" := [Descriptor('x', 1, 2)],

      "L"  := [Descriptor('x', -1, -1)],
      "L'" := [Descriptor('x', -1, 1)],
      "L2" := [Descriptor('x', -1, 2)],

      "U"  := [Descriptor('y', 1, 1)],
      "U'" := [Descriptor('y', 1, -1)],
      "U2" := [Descriptor('y', 1, 2)],

      "D"  := [Descriptor('y', -1, -1)],
      "D'" := [Descriptor('y', -1, 1)],
      "D2" := [Descriptor('y', -1, 2)],

      "F"  := [Descriptor('z', 1, 1)],
      "F'" := [Descriptor('z', 1, -1)],
      "F2" := [Descriptor('z', 1, 2)],

      "B"  := [Descriptor('z', -1, -1)],
      "B'" := [Descriptor('z', -1, 1)],
      "B2" := [Descriptor('z', -1, 2)],

      "M"  := [Descriptor('x', 0, -1)],
      "M'" := [Descriptor('x', 0, 1)],
      "M2" := [Descriptor('x', 0, 2)],

      "E"  := [Descriptor('y', 0, -1)],
      "E'" := [Descriptor('y', 0, 1)],
      "E2" := [Descriptor('y', 0, 2)],

      "S"  := [Descriptor('z', 0, 1)],
      "S"  := [Descriptor('z', 0, -1)],
      "S"  := [Descriptor('z', 0, 2)],

      "X"  := [Descriptor('x', 1, 1), Descriptor('x', 0, 1), Descriptor('x', -1, -1)],
      "X'" := [Descriptor('x', 1, -1), Descriptor('x', 0, -1), Descriptor('x', -1, -1)],
      "X'" := [Descriptor('x', 1, 2), Descriptor('x', 0, 2), Descriptor('x', -1, 2)],

      "Y"  := [Descriptor('y', 1, 1), Descriptor('y', 0, 1), Descriptor('y', -1, 1)],
      "Y'" := [Descriptor('y', 1, -1), Descriptor('y', 0, -1), Descriptor('y', -1, -1)],
      "Y2" := [Descriptor('y', 1, 2), Descriptor('y', 0, 2), Descriptor('y', -1, 2)],

      "Z"  := [Descriptor('z', 1, 1), Descriptor('z', 0, 1), Descriptor('z', -1, 1)],
      "Z'" := [Descriptor('z', 1, -1), Descriptor('z', 0, -1), Descriptor('z', -1, -1)],
      "Z2" := [Descriptor('z', 1, 2), Descriptor('z', 0, 2), Descriptor('z', -1, 2)]
    ]
  }

  const MoveNames: set<string> := {
    "R", "R'", "R2", "L", "L'", "L2", "U", "U'", "U2", "D", "D'", "D2",
    "F", "F'", "F2", "B", "B'", "B2", "M", "M'", "M2", "E", "E'", "E2",
    "S", "X", "X'", "Y", "Y'", "Y2", "Z", "Z'", "Z2"
  }

  /** `b` undoes `a` turn for turn: same axes and layers, each direction negated. */
  predicate InverseEntry(a: seq<Descriptor>, b: seq<Descriptor>)
  {
    |a| == |b| &&
    forall i | 0 <= i < |a| ::
      b[i].axis == a[i].axis && b[i].layer == a[i].layer && b[i].direction == -a[i].direction
  }

  /** `b` is `a` with every turn made a half turn. */
  predicate DoubledEntry(a: seq<Descriptor>, b: seq<Descriptor>)
  {
    |a| == |b| &&
    forall i | 0 <= i < |a| ::
      b[i].axis == a[i].axis && b[i].layer == a[i].layer && b[i].direction == 2
  }

  /** A family is complete and consistent when its bare, prime and double names are all defined, the prime entry is the inverse of the bare one and the double entry its double. */
  predicate FamilyConsistent(m: map<string, seq<Descriptor>>, bare: string, prime: string, double: string)
  {
    bare in m && prime in m && double in m &&
    InverseEntry(m[bare], m[prime]) && DoubledEntry(m[bare], m[double])
  }

  /** A whole-cube rotation: the three layers 1, 0, -1 of one axis, in that order, all turned the same way. */
  predicate WholeCubeEntry(e: seq<Descriptor>)
  {
    |e| == 3 &&
    e[0].axis == e[1].axis == e[2].axis &&
    e[0].layer == 1 && e[1].layer == 0 && e[2].layer == -1 &&
    e[0].direction == e[1].direction == e[2].direction
  }

  /** The names the table defines: 33 of the 36 written, since "S" is written three times and "X'" twice. */
  lemma MoveMapKeys()
    ensures forall name | name in MoveMap() :: name in MoveNames
    ensures forall name | name in MoveNames :: name in MoveMap()
  {
  }

  /** The slice turns S' and S2 and the rotation X2 are missing from the table. */
  lemma MissingNames()
    ensures "S'" !in MoveMap() && "S2" !in MoveMap() && "X2" !in MoveMap()
  {
  }

  /** Every descriptor in the table satisfies the constraints `rotate` documents. */
  lemma MoveMapWellFormed()
    ensures forall name, i | name in MoveMap() && 0 <= i < |MoveMap()[name]| :: WellFormedDescriptor(MoveMap()[name][i])
  {
  }

  /** No entry is empty: face and slice moves are one turn, whole-cube rotations three. */
  lemma MoveMapEntriesNonEmpty()
    ensures forall name | name in MoveMap() :: |MoveMap()[name]| == (if name[0] in "XYZ" then 3 else 1)
  {
  }

  /** Repeated keys resolve to the last value written: "S" is the half slice turn, "X'" the three half turns. */
  lemma DuplicateKeysLastWins()
    ensures MoveMap()["S"] == [Descriptor('z', 0, 2)]
    ensures MoveMap()["X'"] == [Descriptor('x', 1, 2), Descriptor('x', 0, 2), Descriptor('x', -1, 2)]
  {
  }

  /**
   * The three entries of a one-layer family: the bare name turns `layer` of `axis` in direction
   * `dir`, the prime name in direction -`dir`, the double name a half turn.
   */
  predicate LayerTriple(m: map<string, seq<Descriptor>>, bare: string, prime: string, double: string, axis: char, layer: int, dir: int)
  {
    bare in m && prime in m && double in m &&
    m[bare] == [Descriptor(axis, layer, dir)] &&
    m[prime] == [Descriptor(axis, layer, -dir)] &&
    m[double] == [Descriptor(axis, layer, 2)]
  }

  /** A layer triple is a consistent family. */
  lemma LayerTripleConsistent(m: map<string, seq<Descriptor>>, bare: string, prime: string, double: string, axis: char, layer: int, dir: int)
    requires LayerTriple(m, bare, prime, double, axis, layer, dir)
    ensures FamilyConsistent(m, bare, prime, double)
  {
  }

  lemma FamilyR()
    ensures LayerTriple(MoveMap(), "R", "R'", "R2", 'x', 1, 1)
  {
    assert MoveMap()["R"] == [Descriptor('x', 1, 1)];
    assert MoveMap()["R'"] == [Descriptor('x', 1, -1)];
  }

  lemma FamilyL()
    ensures LayerTriple(MoveMap(), "L", "L'", "L2", 'x', -1, -1)
  {
  }

  lemma FamilyU()
    ensures LayerTriple(MoveMap(), "U", "U'", "U2", 'y', 1, 1)
  {
  }

  lemma FamilyD()
    ensures LayerTriple(MoveMap(), "D", "D'", "D2", 'y', -1, -1)
  {
  }

  lemma FamilyF()
    ensures LayerTriple(MoveMap(), "F", "F'", "F2", 'z', 1, 1)
  {
  }

  lemma FamilyB()
    ensures LayerTriple(MoveMap(), "B", "B'", "B2", 'z', -1, -1)
  {
  }

  lemma FamilyM()
    ensures LayerTriple(MoveMap(), "M", "M'", "M2", 'x', 0, -1)
  {
  }

  lemma FamilyE()
    ensures LayerTriple(MoveMap(), "E", "E'", "E2", 'y', 0, -1)
  {
  }

  /**
   * The eight one-layer families R, L, U, D, F, B, M and E each come as a full triple whose prime
   * entry inverts and whose double entry doubles the bare one. The bare R, U and F turn their
   * outer layer in direction 1; the opposite faces L, D and B, and the slices M and E (which
   * follow L and D), use direction -1.
   */
  lemma LayerFamilies()
    ensures LayerTriple(MoveMap(), "R", "R'", "R2", 'x', 1, 1) && LayerTriple(MoveMap(), "L", "L'", "L2", 'x', -1, -1)
    ensures LayerTriple(MoveMap(), "U", "U'", "U2", 'y', 1, 1) && LayerTriple(MoveMap(), "D", "D'", "D2", 'y', -1, -1)
    ensures LayerTriple(MoveMap(), "F", "F'", "F2", 'z', 1, 1) && LayerTriple(MoveMap(), "B", "B'", "B2", 'z', -1, -1)
    ensures LayerTriple(MoveMap(), "M", "M'", "M2", 'x', 0, -1) && LayerTriple(MoveMap(), "E", "E'", "E2", 'y', 0, -1)
  {
    FamilyR(); FamilyL(); FamilyU(); FamilyD(); FamilyF(); FamilyB(); FamilyM(); FamilyE();
  }

  /** The Y and Z entries, bare, prime and double, are whole-cube rotations; X and X' are three turns of the x layers 1, 0, -1 in that order. */
  lemma WholeCubeEntries()
    ensures forall w | w in {"Y", "Y'", "Y2", "Z", "Z'", "Z2"} :: WholeCubeEntry(MoveMap()[w])
    ensures forall w | w in {"X", "X'"} ::
      |MoveMap()[w]| == 3 && forall i | 0 <= i < 3 :: MoveMap()[w][i].axis == 'x' && MoveMap()[w][i].layer == 1 - i
  {
  }

  /** The Y and Z rotations each come as a full consistent triple. */
  lemma RotationsConsistent()
    ensures FamilyConsistent(MoveMap(), "Y", "Y'", "Y2") && FamilyConsistent(MoveMap(), "Z", "Z'", "Z2")
  {
  }

  /**
   * The X entry as written turns layer -1 in direction -1, the way L does, while layers 1 and 0
   * turn in direction 1: it is not a whole-cube rotation, and the surviving X' entry does not undo it.
   */
  lemma XAsWritten()
    ensures MoveMap()["X"][2] == MoveMap()["L"][0]
    ensures !WholeCubeEntry(MoveMap()["X"])
    ensures !InverseEntry(MoveMap()["X"], MoveMap()["X'"])
  {
  }

  /** Every name of the notation: the bare, prime and double forms of the twelve families. */
  const NotationNames: set<string> := {
    "R", "R'", "R2", "L", "L'", "L2", "U", "U'", "U2", "D", "D'", "D2",
    "F", "F'", "F2", "B", "B'", "B2", "M", "M'", "M2", "E", "E'", "E2",
    "S", "S'", "S2", "X", "X'", "X2", "Y", "Y'", "Y2", "Z", "Z'", "Z2"
  }

  /**
   * The table as evidently intended: the three "S" entries keyed S, S' and S2, the second "X'"
   * entry keyed X2, and the third turn of X made ('x', -1, 1) so that X is R + M' + L'.
   */
  function IntendedMoveMap(): map<string, seq<Descriptor>>
  {
    MoveMap()
      ["S" := [Descriptor('z', 0, 1)]]
      ["S'" := [Descriptor('z', 0, -1)]]
      ["S2" := [Descriptor('z', 0, 2)]]
      ["X" := [Descriptor('x', 1, 1), Descriptor('x', 0, 1), Descriptor('x', -1, 1)]]
      ["X'" := [Descriptor('x', 1, -1), Descriptor('x', 0, -1), Descriptor('x', -1, -1)]]
      ["X2" := [Descriptor('x', 1, 2), Descriptor('x', 0, 2), Descriptor('x', -1, 2)]]
  }

  /** The intended table defines every name of the notation and nothing else. */
  lemma IntendedMoveMapKeys()
    ensures forall name | name in NotationNames :: name in IntendedMoveMap()
    ensures forall name | name in IntendedMoveMap() :: name in NotationNames
  {
    MoveMapKeys();
  }

  /** In the intended table the S and X families are consistent triples too, and all three X entries are whole-cube rotations. */
  lemma IntendedFamiliesConsistent()
    ensures FamilyConsistent(IntendedMoveMap(), "S", "S'", "S2")
    ensures FamilyConsistent(IntendedMoveMap(), "X", "X'", "X2")
    ensures forall w | w in {"X", "X'", "X2"} :: WholeCubeEntry(IntendedMoveMap()[w])
  {
  }

  /** Every other name keeps the entry it has as written, so the other ten families stay consistent. */
  lemma IntendedAgreesElsewhere(name: string)
    requires name in MoveMap() && name != "S" && name != "X" && name != "X'"
    ensures name in IntendedMoveMap() && IntendedMoveMap()[name] == MoveMap()[name]
  {
  }

  /** The intended table has no empty entry either. */
  lemma IntendedEntriesNonEmpty()
    ensures forall name | name in IntendedMoveMap() :: |IntendedMoveMap()[name]| > 0
  {
    forall name | name in IntendedMoveMap() ensures |IntendedMoveMap()[name]| > 0 {
      if name in MoveMap() && name != "S" && name != "X" && name != "X'" {
        IntendedAgreesElsewhere(name);
        MoveMapEntriesNonEmpty();
      }
    }
  }
}
