# Rubik's cube state engine (cube.py), modelled in Dafny

This project models the state engine of the rubiks-cube-simulation repository, `cube.py`:

- the `Cubie` record: an integer position in {-1, 0, 1}^3 and a dictionary from outward
  direction to sticker colour;
- `Cube.__init__`, which creates the empty list of pieces, fills it with `build_solved` and
  installs the move table `MOVE_MAP`;
- `build_solved`, whose three nested loops append one cubie per non-core lattice point;
- `MOVE_MAP`, the dictionary literal from move names to `(axis, layer, direction)` turns;
- `parse_sequence`, which splits a move string on whitespace and looks each token up in the table.

Modules:

- `Geometry` (geometry.dfy): directions, colours, positions, the `Cubie` record, and the face keys
  a position calls for.
- `SolvedState` (solved.dfy): the solved cube and what it guarantees. `SolvedCubies` defines it
  independently of the loops: the solved cubie of the i-th non-core lattice point in (x, y, z)
  order. `Cells`, `Rows` and `Slabs` describe what the innermost, middle and outer loop have
  appended so far, and `BuiltIsSolved` proves that the loops append exactly `SolvedCubies`. The
  counting lemmas add up a per-cubie quantity loop by loop.
- `Moves` (moves.dfy): the move table written as a Dafny map display. Like a Python dict display,
  it keeps the last value of a repeated key. The module also holds the table's properties and the
  evidently intended table.
- `Tokens` (tokens.dfy): `str.split()` with no separator, and its laws.
- `Parsing` (parsing.dfy): the token loop of `parse_sequence` as a function over the token list.
- `CubeEngine` (cube_engine.dfy): the `Cube` class.
  - Its fields are `cubies: seq<Cubie>` and `moveMap`.
  - `build_solved` is written as three nested `for` loops, each in its own method, so that each
    loop gets its own invariant (`AppendSlabs`, `AppendSlab`, `AppendRow`).
  - The six conditional dictionary inserts are `FacesFor`.
  - `parse_sequence` is a `while` loop proved against `Parsing.ParseSequence`.

Dictionary keys `"x+"`, ..., `"z-"` and colour letters `"G"`, ..., `"O"` are modelled as the
enumerations `Direction` and `Colour`. `DirectionName` and `ColourLetter` map them back to the
source strings, and both maps are proved injective.

`parse_sequence` subscripts the table with `self.MOVE_MAP[move]` (cube.py:114). A token the
table lacks therefore raises `KeyError` at the lookup, and no later token is looked at. The model
follows the code: the outcome `KeyError(rotations, key)` carries the entries already handed to
`rotate` and the missing key. The code's "Unknown move" branch (cube.py:114-116) fires only for
an empty entry, and `UnknownMoveUnreachable` shows that no entry of the table is empty. That
branch reports the move and continues with the next token, so the loop evidently means to skip
an unknown token. The model states that intended loop as `Parsing.ExpandSkipping` (see
"## Findings").

In Python, the call `self.rotate(self.MOVE_MAP[move])` (cube.py:117) itself fails. `rotate`
(cube.py:120) is declared without `self`, so the call binds the cube to `axis` and the entry to
`layer`, and leaves `direction` unbound. That raises `TypeError` at the first token whose entry
is non-empty. The model replaces `rotate` with a recorder that returns normally. Everything this
project says about later tokens holds under that recording `rotate` (see "## Left out").

## Model

| member | source | states |
|---|---|---|
| Geometry.ColourLetter | cube.py:101-106 | no contract; defines the colour letters G, B, W, Y, R, O of the six colours |
| Geometry.FaceKeys | cube.py:100-106 | no contract; defines the keys a piece at a position should carry: on each axis, the direction whose sign is the coordinate |
| Geometry.DirectionName | cube.py:101-106 | a face key is two characters, the axis letter followed by the sign |
| Geometry.DirectionNameInjective | cube.py:101-106 | the six face-key strings are pairwise distinct, so the enumeration loses nothing |
| Geometry.ColourLetterInjective | cube.py:101-106 | the six colour letters are pairwise distinct |
| Geometry.FaceKeysNonZero | cube.py:100-106 | a piece has a key on an axis exactly when that coordinate is non-zero, and the key's sign is the coordinate |
| Geometry.FaceKeysOnePerAxis | cube.py:100-106 | a piece never has both keys of one axis |
| Geometry.FaceKeysByAxis | cube.py:100-106 | the face keys are the union of one key set per axis |
| Geometry.FaceKeysCount | cube.py:100-106 | inside the lattice, the number of face keys is the number of non-zero coordinates |
| SolvedState.SolvedColour | cube.py:101-106 | no contract; defines the colour scheme x+ G, x- B, y+ W, y- Y, z+ R, z- O |
| SolvedState.SolvedFaces | cube.py:100-106 | no contract; defines the faces dictionary as the six conditional inserts build it |
| SolvedState.SolvedCubie | cube.py:108 | no contract; defines the cubie appended for a position |
| SolvedState.SolvedCubies | cube.py:91-108 | no contract; defines the solved cube in closed form: the solved cubie of the i-th non-core lattice point in (x, y, z) order |
| SolvedState.SolvedFacesKeys | cube.py:100-106 | the faces built for a position have exactly the face keys of that position, each with the colour of its direction |
| SolvedState.CellsShape | cube.py:93-108 | the innermost loop appends solved cubies of its row, in ascending z, covering every valid point of the row it has passed |
| SolvedState.RowsShape | cube.py:92-108 | the middle loop appends solved cubies of its slab, ascending, covering every valid point with y below the loop variable |
| SolvedState.SlabsOrdered | cube.py:91-108 | the outer loop appends solved cubies at valid positions, strictly ascending, all with x below the loop variable |
| SolvedState.SlabsComplete | cube.py:91-108 | the outer loop has appended every valid position with x below the loop variable |
| SolvedState.CellsPrefix | cube.py:93-108 | each row of the innermost loop appends the next stretch of the solved cube, skipping the core |
| SolvedState.RowsPrefix | cube.py:92-108 | each slab of the middle loop appends the next stretch of the solved cube |
| SolvedState.SlabsPrefix | cube.py:91-108 | after each slab the list built so far is a prefix of the solved cube |
| SolvedState.BuiltIsSolved | cube.py:89-108 | the three loops append exactly the solved cube: the solved cubie of each of the 26 non-core lattice points, in (x, y, z) order |
| SolvedState.SolvedOrdered | cube.py:91-96 | every cubie of the solved cube is the solved cubie of a valid position (in the lattice, not the core), and positions ascend strictly in tuple order |
| SolvedState.SolvedDistinct | cube.py:91-96 | no two cubies of the solved cube share a position |
| SolvedState.SolvedComplete | cube.py:91-96 | every valid position is occupied in the solved cube |
| SolvedState.SolvedCubieWellFormed | cube.py:100-106 | the solved cubie of a valid position carries exactly its face keys, one per non-zero coordinate |
| SolvedState.AllSolvedWellFormed | cube.py:100-108 | a list of solved cubies at valid positions satisfies the per-piece invariant |
| SolvedState.SolvedWellFormed | cube.py:89-108 | the solved cube satisfies the global invariant: 26 well-formed cubies at pairwise distinct positions |
| SolvedState.SolvedColours | cube.py:101-106 | in the solved cube every sticker has the colour of its direction |
| SolvedState.AllSolvedColours | cube.py:101-106 | the same, for any list of solved cubies |
| SolvedState.ColourDirection | cube.py:101-106 | each colour belongs to exactly one direction: the colour scheme is a bijection |
| SolvedState.SolvedCubieColour | cube.py:101-106 | a solved cubie carries one sticker of a colour exactly when it lies on that colour's face |
| SolvedState.SolvedKinds | cube.py:91-106 | the solved cube has 6 pieces with one face key, 12 with two, 8 with three, and none with another count |
| SolvedState.SolvedStickerTotal | cube.py:91-106 | the solved cube carries 54 stickers |
| SolvedState.SolvedColourCount | cube.py:91-106 | the solved cube carries 9 stickers of each colour |
| Moves.MoveMap | cube.py:33-87 | no contract; defines the table as the dictionary literal, entry for entry, where a repeated key keeps its last value |
| Moves.MoveMapKeys | cube.py:33-87 | the table defines exactly 33 names: the 36 written, less the repeats |
| Moves.MissingNames | cube.py:68-76 | S', S2 and X2 are not in the table |
| Moves.DuplicateKeysLastWins | cube.py:68-76 | the repeated keys keep their last value: S is the half slice turn, and X' is the three half turns |
| Moves.MoveMapWellFormed | cube.py:33-87 | every turn in the table has axis x, y or z, layer -1, 0 or 1, and direction 1, -1 or 2, as the `rotate` doc-comment requires (cube.py:122-124) |
| Moves.MoveMapEntriesNonEmpty | cube.py:33-87 | face and slice moves are one turn and whole-cube rotations three, so no entry is empty |
| Moves.LayerTripleConsistent | cube.py:34-66 | a layer triple is a consistent family: the prime entry inverts the bare one, and the double entry doubles it |
| Moves.FamilyR | cube.py:34-36 | R, R', R2 turn layer 1 of x in directions 1, -1, 2 |
| Moves.FamilyL | cube.py:38-40 | L, L', L2 turn layer -1 of x in directions -1, 1, 2 |
| Moves.FamilyU | cube.py:42-44 | U, U', U2 turn layer 1 of y in directions 1, -1, 2 |
| Moves.FamilyD | cube.py:46-48 | D, D', D2 turn layer -1 of y in directions -1, 1, 2 |
| Moves.FamilyF | cube.py:50-52 | F, F', F2 turn layer 1 of z in directions 1, -1, 2 |
| Moves.FamilyB | cube.py:54-56 | B, B', B2 turn layer -1 of z in directions -1, 1, 2 |
| Moves.FamilyM | cube.py:60-62 | M, M', M2 turn layer 0 of x in directions -1, 1, 2 |
| Moves.FamilyE | cube.py:64-66 | E, E', E2 turn layer 0 of y in directions -1, 1, 2 |
| Moves.LayerFamilies | cube.py:34-66 | all eight one-layer families are full triples; R, U and F use direction 1, and L, D, B, M and E use -1 |
| Moves.WholeCubeEntries | cube.py:74-84 | Y, Y', Y2, Z, Z', Z2 are whole-cube rotations; X and X' are three x turns on layers 1, 0, -1 in that order |
| Moves.RotationsConsistent | cube.py:78-84 | the Y and Z families are consistent triples |
| Moves.XAsWritten | cube.py:72-76 | X as written turns layer -1 the way L does; X is not a whole-cube rotation, and X' does not invert it |
| Moves.IntendedMoveMapKeys | cube.py:33-87 | the intended table defines exactly the 36 names of the notation |
| Moves.IntendedFamiliesConsistent | cube.py:68-76 | in the intended table, S and X are consistent triples and all three X entries are whole-cube rotations |
| Moves.IntendedAgreesElsewhere | cube.py:33-87 | the intended table differs from the written one only at S, X and X' |
| Moves.IntendedEntriesNonEmpty | cube.py:33-87 | the intended table has no empty entry |
| Tokens.TokenLength | cube.py:112 | a token runs up to the first whitespace character |
| Tokens.Split | cube.py:112 | `split()` yields only non-empty, whitespace-free tokens |
| Tokens.SplitKeepsNonSpace | cube.py:112 | the tokens, concatenated in order, are the non-whitespace characters of the input |
| Tokens.SplitBlank | cube.py:112 | a blank string, the empty string included, has no tokens |
| Tokens.SplitToken | cube.py:112 | a single token splits to itself |
| Tokens.SplitAtSpace | cube.py:112 | a whitespace character separates: the two sides split independently |
| Tokens.SplitJoin | cube.py:112 | joining tokens with single spaces and splitting again gives the tokens back |
| Parsing.Step | cube.py:113-117 | no contract; defines one pass of the loop: raise at a missing token, skip an empty entry, otherwise hand the entry to `rotate` |
| Parsing.Expand | cube.py:113-117 | no contract; defines the loop over the tokens, left to right |
| Parsing.ParseSequence | cube.py:111-117 | no contract; defines `parse_sequence` as the loop over the tokens of `split()` |
| Parsing.ExpandAllPresent | cube.py:113-117 | if every token is in the table, the parse completes and hands `rotate` the non-empty entries in token order |
| Parsing.ExpandStopsAtKeyError | cube.py:113-114 | once a lookup has raised, later tokens change nothing |
| Parsing.ExpandFirstMissing | cube.py:113-117 | at the first missing token the parse raises `KeyError` for it, after the entries of the tokens before it |
| Parsing.ExpandCompletesIff | cube.py:113-117 | the parse completes if and only if every token is in the table |
| Parsing.RaisesAtSecond | cube.py:113-117 | a missing second token raises after the first token's entry, whatever follows |
| Parsing.RotationsOnePerToken | cube.py:113-117 | with no empty entry, `rotate` is called once per token with that token's entry |
| Parsing.UnknownMoveUnreachable | cube.py:114-116 | with the table as written, the "Unknown move" branch is never taken |
| Parsing.MissingNameRaises | cube.py:111-117 | under the recording `rotate`, "R S2 U" issues R's turn and then raises `KeyError` for S2 |
| Parsing.MissingFirstNameRaises | cube.py:111-114 | "S2 R" raises `KeyError` for S2 before any call to `rotate` |
| Parsing.SkippingDropsMissing | cube.py:113-117 | the intended loop hands `rotate` the entries of the defined tokens, in order, as if the others were absent |
| Parsing.SkippingAgreesWhenAllPresent | cube.py:113-117 | when every token is defined, the intended loop and the loop as written hand `rotate` the same entries |
| Parsing.SkipsMissingToken | cube.py:114-116 | with the intended loop, an undefined token anywhere in the sequence changes nothing |
| Parsing.SkippingExample | cube.py:114-116 | with the intended loop, "R BOGUS U" turns as "R U" does, for any table lacking "BOGUS" |
| Parsing.BogusMissing | cube.py:33-87 | "BOGUS" is not a name of the table as written |
| Parsing.IntendedAcceptsNotation | cube.py:111-117 | with the intended table, any sequence of notation names completes with one rotation per name, in order |
| CubeEngine.Cube.constructor | cube.py:28-30 | a new cube holds exactly the solved cube and the move table as written |
| CubeEngine.Cube.BuildSolved | cube.py:89-108 | `build_solved` appends exactly the solved cube to the list it is given |
| CubeEngine.Cube.AppendSlabs | cube.py:91-108 | the outer loop appends the slabs before its bound, in order |
| CubeEngine.Cube.AppendSlab | cube.py:92-108 | the middle loop appends the rows of one slab, in order |
| CubeEngine.Cube.AppendRow | cube.py:93-108 | the innermost loop appends the cells of one row, skipping the core |
| CubeEngine.FacesFor | cube.py:100-106 | the six conditional inserts build exactly the solved faces of the point |
| CubeEngine.Cube.ParseSequence | cube.py:111-117 | on a constructed cube, the loop produces exactly the outcome that `Parsing.ParseSequence` defines for the table as written |

## Left out

- `rotate` (cube.py:120-126) is not modelled. Its body holds only a doc-comment, and its signature
  has no `self`. The call `self.rotate(self.MOVE_MAP[move])` (cube.py:117) passes one list where
  three arguments are declared. The model therefore records the entries handed to `rotate`, in
  order, instead of applying any turn.
- Parsing.Expand and CubeEngine.Cube.ParseSequence do not model the `TypeError` that Python raises
  at the first call to `rotate` (cube.py:117, 120). They model `rotate` as a recorder that returns
  normally, so every outcome that goes past a token with a non-empty entry holds only under that
  recording `rotate`.
- `CubeEngine.Cube.ParseSequence` does not model the two `print` calls (cube.py:115, 118), which
  are output only.
- The other files of the repository are not part of this model. `fake_3d_main.py` renders with
  pygame and floating point. `interactive_main.py` is a console loop. `testing_main.py` calls
  functions that `cube.py` does not define.
- Scrambling, net printing and cubie dumps are not part of this model: `cube.py` does not define
  them.
- `CubeEngine.Cube.AppendSlabs`, `AppendSlab` and `AppendRow` split the three nested loops of
  `build_solved` into one method per loop. The outer method takes its loop bound as a parameter,
  and `BuildSolved` calls it with the full bound.
- The constructor starts with an empty table (Dafny needs every field set) and installs the
  table after `build_solved`, in the order the source does.
- Python object identity and aliasing of the `faces` dictionaries are not modelled: a cubie is
  a value.

## Findings

| source | as written | input that shows it | evidently intended | confidence | as-written member | corrected member |
|---|---|---|---|---|---|---|
| cube.py:68-70 | the key "S" is written three times, so only the half turn survives | "S'" and "S2" are not in the table; `parse_sequence("S2 R")` raises `KeyError` for S2 | keys S, S', S2 for directions 1, -1, 2, like the other slices | not executed | Moves.DuplicateKeysLastWins, Moves.MissingNames, Parsing.MissingFirstNameRaises | Moves.IntendedFamiliesConsistent, Moves.IntendedMoveMapKeys, Parsing.IntendedAcceptsNotation |
| cube.py:75-76 | the key "X'" is written twice, so the three half turns replace the prime rotation | "X2" is not in the table, and X' maps to three half turns | the second entry keyed "X2" | not executed | Moves.DuplicateKeysLastWins, Moves.MissingNames | Moves.IntendedFamiliesConsistent, Moves.IntendedMoveMapKeys |
| cube.py:114-116 | the lookup `self.MOVE_MAP[move]` raises `KeyError` for a token the table lacks, so the "Unknown move" branch, which reports and continues, is never taken | "S2 R" raises `KeyError` and never reaches R; no entry is empty, so the branch is dead | a lookup that yields nothing for a missing token (`.get(move)`), so that it is reported and skipped and the parse carries on | not executed | Parsing.MissingFirstNameRaises, Parsing.ExpandFirstMissing, Parsing.UnknownMoveUnreachable | Parsing.SkippingDropsMissing, Parsing.SkipsMissingToken, Parsing.SkippingExample |
| cube.py:74 | the third turn of X is ('x', -1, -1), the turn of L | X turns layers 1 and 0 in direction 1 but layer -1 in direction -1, so it is not a whole-cube rotation | ('x', -1, 1), so that X is R + M' + L' as the comment at cube.py:72 says | not executed | Moves.XAsWritten | Moves.IntendedFamiliesConsistent |

`Moves.IntendedMoveMap` is the table with these three corrections. The `Cube` class installs the
table as written, since that is what the code does. The corrected table is proved to have
consistent S and X families. It defines every name of the notation. With it, every sequence of
notation names parses completely (`Parsing.IntendedAcceptsNotation`). In the same way,
`Parsing.ExpandSkipping` is the loop with the intended skip. It agrees with the loop as written
whenever every token is defined (`Parsing.SkippingAgreesWhenAllPresent`).
