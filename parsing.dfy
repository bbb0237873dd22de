/**
 * What `Cube.parse_sequence` (cube.py) does with a move string: split it into
 * tokens, then, token by token and in order, look the token up in the move
 * table and hand the entry to `rotate`. A token the table lacks raises
 * `KeyError` at the lookup, which ends the parse with the earlier rotations
 * already issued; an empty entry would be reported as unknown and skipped.
 */
module Parsing {
  import opened Moves
  import opened Tokens

  /** The entries handed to `rotate`, in order, and whether the parse ran to the end or stopped at a missing key. */
  datatype ParseOutcome =
    | Completed(rotations: seq<seq<Descriptor>>)
    | KeyError(rotations: seq<seq<Descriptor>>, key: string)

  /** One step of the loop: what it does with `token` given the outcome so far. */
  function Step(m: map<string, seq<Descriptor>>, so_far: ParseOutcome, token: string): ParseOutcome
  {
    match so_far
    case KeyError(_, _) => so_far
    case Completed(rotations) =>
      if token !in m then KeyError(rotations, token)
      else if m[token] == [] then so_far
      else Completed(rotations + [m[token]])
  }

  /** The loop of `parse_sequence` over the tokens `ts`, with move table `m`. */
  function Expand(m: map<string, seq<Descriptor>>, ts: seq<string>): ParseOutcome
  {
    if ts == [] then Completed([]) else Step(m, Expand(m, ts[..|ts| - 1]), ts[|ts| - 1])
  }

  /** `parse_sequence` on the string `sequence`. */
  function ParseSequence(m: map<string, seq<Descriptor>>, sequence: string): ParseOutcome
  {
    Expand(m, Split(sequence))
  }

  /** Independent reference: the non-empty entries of tokens that are all in the table, in token order. */
  function Rotations(m: map<string, seq<Descriptor>>, ts: seq<string>): seq<seq<Descriptor>>
    requires forall i | 0 <= i < |ts| :: ts[i] in m
  {
    if ts == [] then [] else (if m[ts[0]] == [] then [] else [m[ts[0]]]) + Rotations(m, ts[1..])
  }

  lemma {:induction false} RotationsAppend(m: map<string, seq<Descriptor>>, ts: seq<string>, t: string)
    requires forall i | 0 <= i < |ts| :: ts[i] in m
    requires t in m
    ensures Rotations(m, ts + [t]) == Rotations(m, ts) + (if m[t] == [] then [] else [m[t]])
  {
    if ts == [] {
      assert ts + [t] == [t];
    } else {
      assert (ts + [t])[1..] == ts[1..] + [t];
      RotationsAppend(m, ts[1..], t);
    }
  }

  /** When every token is in the table, the parse completes, handing `rotate` the non-empty entries in token order. */
  lemma {:induction false} ExpandAllPresent(m: map<string, seq<Descriptor>>, ts: seq<string>)
    requires forall i | 0 <= i < |ts| :: ts[i] in m
    ensures Expand(m, ts) == Completed(Rotations(m, ts))
  {
    if ts != [] {
      var init, t := ts[..|ts| - 1], ts[|ts| - 1];
      ExpandAllPresent(m, init);
      RotationsAppend(m, init, t);
      assert init + [t] == ts;
    }
  }

  /** Once a lookup has failed, later tokens change nothing. */
  lemma {:induction false} ExpandStopsAtKeyError(m: map<string, seq<Descriptor>>, a: seq<string>, b: seq<string>)
    requires Expand(m, a).KeyError?
    ensures Expand(m, a + b) == Expand(m, a)
  {
    if b != [] {
      ExpandStopsAtKeyError(m, a, b[..|b| - 1]);
      assert (a + b)[..|a + b| - 1] == a + b[..|b| - 1];
    } else {
      assert a + b == a;
    }
  }

  /**
   * When token `k` is the first one missing from the table, the parse stops there with `KeyError`
   * for that token, after handing `rotate` the entries of the tokens before it.
   */
  lemma ExpandFirstMissing(m: map<string, seq<Descriptor>>, ts: seq<string>, k: nat)
    requires k < |ts| && ts[k] !in m
    requires forall i | 0 <= i < k :: ts[i] in m
    ensures Expand(m, ts) == KeyError(Rotations(m, ts[..k]), ts[k])
  {
    ExpandAllPresent(m, ts[..k]);
    assert ts[..k + 1][..k] == ts[..k];
    assert Expand(m, ts[..k + 1]) == KeyError(Rotations(m, ts[..k]), ts[k]);
    ExpandStopsAtKeyError(m, ts[..k + 1], ts[k + 1..]);
    assert ts[..k + 1] + ts[k + 1..] == ts;
  }

  /** The parse completes exactly when every token is in the table. */
  lemma ExpandCompletesIff(m: map<string, seq<Descriptor>>, ts: seq<string>)
    ensures Expand(m, ts).Completed? <==> forall i | 0 <= i < |ts| :: ts[i] in m
  {
    if forall i | 0 <= i < |ts| :: ts[i] in m {
      ExpandAllPresent(m, ts);
    } else {
      var k := FirstMissing(m, ts);
      ExpandFirstMissing(m, ts, k);
    }
  }

  /** The index of the first token missing from the table, when there is one. */
  function FirstMissing(m: map<string, seq<Descriptor>>, ts: seq<string>): (k: nat)
    requires exists i | 0 <= i < |ts| :: ts[i] !in m
    ensures k < |ts| && ts[k] !in m
    ensures forall i | 0 <= i < k :: ts[i] in m
  {
    if ts[0] !in m then 0
    else
      assert exists i | 0 <= i < |ts[1..]| :: ts[1..][i] !in m by {
        var i :| 0 <= i < |ts| && ts[i] !in m;
        assert ts[1..][i - 1] == ts[i];
      }
      1 + FirstMissing(m, ts[1..])
  }

  /** With no empty entry in the table, `rotate` is called once per token, with that token's entry. */
  lemma {:induction false} RotationsOnePerToken(m: map<string, seq<Descriptor>>, ts: seq<string>)
    requires forall i | 0 <= i < |ts| :: ts[i] in m
    requires forall name | name in m :: |m[name]| > 0
    ensures |Rotations(m, ts)| == |ts|
    ensures forall i | 0 <= i < |ts| :: Rotations(m, ts)[i] == m[ts[i]]
  {
    if ts != [] {
      RotationsOnePerToken(m, ts[1..]);
      assert forall i | 1 <= i < |ts| :: Rotations(m, ts)[i] == Rotations(m, ts[1..])[i - 1];
    }
  }

  /** No entry of the table as written is empty, so the "Unknown move" branch of the loop is never taken. */
  lemma UnknownMoveUnreachable(ts: seq<string>)
    requires forall i | 0 <= i < |ts| :: ts[i] in MoveMap()
    ensures |Rotations(MoveMap(), ts)| == |ts|
    ensures forall i | 0 <= i < |ts| :: Rotations(MoveMap(), ts)[i] == MoveMap()[ts[i]]
  {
    MoveMapEntriesNonEmpty();
    RotationsOnePerToken(MoveMap(), ts);
  }

  lemma SplitExample()
    ensures Split("R S2 U") == ["R", "S2", "U"]
  {
    var ts := ["R", "S2", "U"];
    assert IsToken("R") && IsToken("S2") && IsToken("U");
    SplitJoin(ts);
    assert Join(ts) == "R S2 U";
  }

  /** A name the table as written lacks ends the parse at once: "R S2 U" issues R's turn and raises `KeyError` for "S2". */
  lemma MissingNameRaises()
    ensures ParseSequence(MoveMap(), "R S2 U") == KeyError([[Descriptor('x', 1, 1)]], "S2")
  {
    SplitExample();
    MissingNames();
    FamilyR();
    RaisesAtSecond(MoveMap(), "R", "S2", "U");
  }

  lemma RaisesAtSecond(m: map<string, seq<Descriptor>>, a: string, b: string, c: string)
    requires a in m && m[a] != [] && b !in m
    ensures Expand(m, [a, b, c]) == KeyError([m[a]], b)
  {
    var ts := [a, b, c];
    ExpandFirstMissing(m, ts, 1);
    assert ts[..1] == [a];
  }

  /** A name the table as written lacks, as the first token, raises `KeyError` before any rotation: "S2 R" gives nothing to `rotate`. */
  lemma MissingFirstNameRaises()
    ensures ParseSequence(MoveMap(), "S2 R") == KeyError([], "S2")
  {
    var ts := ["S2", "R"];
    assert IsToken("S2") && IsToken("R");
    SplitJoin(ts);
    assert Join(ts) == "S2 R";
    MissingNames();
    ExpandFirstMissing(MoveMap(), ts, 0);
  }

  /**
   * The loop as its "Unknown move" branch evidently intends it: a token that the table lacks, or
   * whose entry is empty, is reported and skipped, and the parse carries on with the next token.
   */
  function SkipStep(m: map<string, seq<Descriptor>>, rotations: seq<seq<Descriptor>>, token: string): seq<seq<Descriptor>>
  {
    if token in m && m[token] != [] then rotations + [m[token]] else rotations
  }

  /** The intended loop over the tokens `ts`: the entries handed to `rotate`, in order. */
  function ExpandSkipping(m: map<string, seq<Descriptor>>, ts: seq<string>): seq<seq<Descriptor>>
  {
    if ts == [] then [] else SkipStep(m, ExpandSkipping(m, ts[..|ts| - 1]), ts[|ts| - 1])
  }

  /** The intended `parse_sequence` on the string `sequence`. */
  function ParseSkipping(m: map<string, seq<Descriptor>>, sequence: string): seq<seq<Descriptor>>
  {
    ExpandSkipping(m, Split(sequence))
  }

  /** The tokens of `ts` that the table defines, in order. */
  function Present(m: map<string, seq<Descriptor>>, ts: seq<string>): (ps: seq<string>)
    ensures forall i | 0 <= i < |ps| :: ps[i] in m
  {
    if ts == [] then [] else Present(m, ts[..|ts| - 1]) + (if ts[|ts| - 1] in m then [ts[|ts| - 1]] else [])
  }

  /** The intended parse hands `rotate` the entries of the defined tokens, in order, as if the others were absent. */
  lemma {:induction false} SkippingDropsMissing(m: map<string, seq<Descriptor>>, ts: seq<string>)
    ensures ExpandSkipping(m, ts) == Rotations(m, Present(m, ts))
  {
    if ts != [] {
      var init, t := ts[..|ts| - 1], ts[|ts| - 1];
      SkippingDropsMissing(m, init);
      if t in m {
        RotationsAppend(m, Present(m, init), t);
      } else {
        assert Present(m, ts) == Present(m, init);
      }
    }
  }

  /** When every token is defined, the intended parse and the parse as written hand `rotate` the same entries. */
  lemma {:induction false} SkippingAgreesWhenAllPresent(m: map<string, seq<Descriptor>>, ts: seq<string>)
    requires forall i | 0 <= i < |ts| :: ts[i] in m
    ensures Expand(m, ts) == Completed(ExpandSkipping(m, ts))
  {
    ExpandAllPresent(m, ts);
    SkippingDropsMissing(m, ts);
    PresentAll(m, ts);
  }

  lemma {:induction false} PresentAll(m: map<string, seq<Descriptor>>, ts: seq<string>)
    requires forall i | 0 <= i < |ts| :: ts[i] in m
    ensures Present(m, ts) == ts
  {
    if ts != [] {
      PresentAll(m, ts[..|ts| - 1]);
      assert ts[..|ts| - 1] + [ts[|ts| - 1]] == ts;
    }
  }

  lemma {:induction false} PresentConcat(m: map<string, seq<Descriptor>>, a: seq<string>, b: seq<string>)
    ensures Present(m, a + b) == Present(m, a) + Present(m, b)
  {
    if b == [] {
      assert a + b == a;
    } else {
      PresentConcat(m, a, b[..|b| - 1]);
      assert (a + b)[..|a + b| - 1] == a + b[..|b| - 1];
    }
  }

  /** With the intended loop, a token the table lacks changes nothing: it is as if it were not there. */
  lemma SkipsMissingToken(m: map<string, seq<Descriptor>>, a: seq<string>, t: string, b: seq<string>)
    requires t !in m
    ensures ExpandSkipping(m, a + [t] + b) == ExpandSkipping(m, a + b)
  {
    assert Present(m, [t]) == [] by {
      assert [t][..0] == [];
    }
    PresentConcat(m, a, [t]);
    assert Present(m, a + [t]) == Present(m, a);
    PresentConcat(m, a + [t], b);
    PresentConcat(m, a, b);
    assert Present(m, a + [t] + b) == Present(m, a + b);
    SkippingDropsMissing(m, a + [t] + b);
    SkippingDropsMissing(m, a + b);
  }

  /** With the intended loop and any table lacking "BOGUS" (the table as written is one), "R BOGUS U" turns as "R U" does. */
  lemma SkippingExample(m: map<string, seq<Descriptor>>)
    requires "BOGUS" !in m
    ensures ParseSkipping(m, "R BOGUS U") == ParseSkipping(m, "R U")
  {
    var ts, us := ["R", "BOGUS", "U"], ["R", "U"];
    assert IsToken("R") && IsToken("BOGUS") && IsToken("U");
    SplitJoin(ts);
    SplitJoin(us);
    assert Join(ts) == "R BOGUS U";
    assert Join(us) == "R U";
    SkipsMissingToken(m, ["R"], "BOGUS", ["U"]);
    assert ["R"] + ["BOGUS"] + ["U"] == ts && ["R"] + ["U"] == us;
  }

  /** "BOGUS" is not a name of the table as written. */
  lemma BogusMissing()
    ensures "BOGUS" !in MoveMap()
  {
  }

  /** With the intended table every sequence of notation names completes, one rotation per name. */
  lemma IntendedAcceptsNotation(sequence: string)
    requires forall t | t in Split(sequence) :: t in NotationNames
    ensures ParseSequence(IntendedMoveMap(), sequence).Completed?
    ensures |ParseSequence(IntendedMoveMap(), sequence).rotations| == |Split(sequence)|
    ensures forall i | 0 <= i < |Split(sequence)| ::
      (Split(sequence)[i] in IntendedMoveMap() &&
       ParseSequence(IntendedMoveMap(), sequence).rotations[i] == IntendedMoveMap()[Split(sequence)[i]])
  {
    var ts := Split(sequence);
    IntendedMoveMapKeys();
    assert forall i | 0 <= i < |ts| :: ts[i] in IntendedMoveMap() by {
      forall i | 0 <= i < |ts| ensures ts[i] in IntendedMoveMap() {
        assert ts[i] in ts;
      }
    }
    ExpandAllPresent(IntendedMoveMap(), ts);
    IntendedEntriesNonEmpty();
    RotationsOnePerToken(IntendedMoveMap(), ts);
  }
}
