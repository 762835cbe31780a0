/** The kit the application mounts the drum sequencer with, used as a worked
    example of the model: three drums and sixteen steps. */
module AppKit {
  import opened StepGrid
  import opened DrumKit
  import opened UseSequence

  /** The three drums, in row order; the sample paths are given relative to
      the public folder. */
  const Kit: seq<Drum> := [
    Drum("Kick", "/sounds/808-Kicks01.wav"),
    Drum("HiHat", "/sounds/808-HiHats03.wav"),
    Drum("Snare", "/sounds/808-Snare02.wav")
  ]

  const StepsLength: nat := 16

  /** The example pattern: kick and hi-hat on step 0, snare on step 4,
      starting from a fresh pattern. */
  function ExampleGrid(): Grid {
    Toggled(Toggled(Toggled(InitialStepState(3, StepsLength), 0, 0), 1, 0), 2, 4)
  }

  lemma ExampleCells()
    ensures |ExampleGrid()| == 3
    ensures forall k :: 0 <= k < 3 ==> |ExampleGrid()[k]| == StepsLength
    ensures ExampleGrid()[0][0] == 1 && ExampleGrid()[1][0] == 1 && ExampleGrid()[2][0] == 0
    ensures ExampleGrid()[0][4] == 0 && ExampleGrid()[1][4] == 0 && ExampleGrid()[2][4] == 1
    ensures ExampleGrid()[0][1] == 0 && ExampleGrid()[1][1] == 0 && ExampleGrid()[2][1] == 0
  {
  }

  /** Step 0 starts the kick then the hi-hat, step 4 the snare, step 1 nothing. */
  lemma ExamplePattern(time: real)
    ensures Triggers(ExampleGrid(), DrumPositions(Kit), 0, time) == [Start("Kick", time), Start("HiHat", time)]
    ensures Triggers(ExampleGrid(), DrumPositions(Kit), 4, time) == [Start("Snare", time)]
    ensures Triggers(ExampleGrid(), DrumPositions(Kit), 1, time) == []
  {
    var g := ExampleGrid();
    var names := DrumPositions(Kit);
    ExampleCells();
    assert names[0] == "Kick" && names[1] == "HiHat" && names[2] == "Snare";
    assert CellAt(g[0], 0) == 1 && CellAt(g[1], 0) == 1 && CellAt(g[2], 0) == 0;
    assert CellAt(g[0], 4) == 0 && CellAt(g[1], 4) == 0 && CellAt(g[2], 4) == 1;
    assert CellAt(g[0], 1) == 0 && CellAt(g[1], 1) == 0 && CellAt(g[2], 1) == 0;
    ColumnTriggers(g, names, 0, time);
    ColumnTriggers(g, names, 4, time);
    ColumnTriggers(g, names, 1, time);
  }

  /** The start call, if any, that row `d` contributes to a tick on `column`. */
  function RowTrigger(g: Grid, names: seq<string>, column: nat, time: real, d: nat): (t: seq<Trigger>)
    requires d < |g| && d < |names|
    ensures t == [] || t == [Start(names[d], time)]
    ensures t != [] <==> Truthy(CellAt(g[d], column))
  {
    if Truthy(CellAt(g[d], column)) then [Start(names[d], time)] else []
  }

  /** The start calls of a tick on the first two rows of a pattern. */
  lemma TwoRowTriggers(g: Grid, names: seq<string>, column: nat, time: real)
    requires 2 <= |g| <= |names|
    ensures Triggers(g[..2], names, column, time) ==
            RowTrigger(g, names, column, time, 0) + RowTrigger(g, names, column, time, 1)
  {
    assert g[..0] == [];
    TriggersSnoc(g, names, column, time, 0);
    TriggersSnoc(g, names, column, time, 1);
  }

  /** The start calls of a tick on a three-row pattern, row by row. */
  lemma ColumnTriggers(g: Grid, names: seq<string>, column: nat, time: real)
    requires |g| == 3 && |names| == 3
    ensures Triggers(g, names, column, time) ==
            RowTrigger(g, names, column, time, 0) + RowTrigger(g, names, column, time, 1) +
            RowTrigger(g, names, column, time, 2)
  {
    TwoRowTriggers(g, names, column, time);
    TriggersSnoc(g, names, column, time, 2);
    assert g[..3] == g;
  }

  /** Every name of the kit is a key of the player record, each with its own sample. */
  lemma ExamplePlayers()
    ensures PlayersRecord(Kit) == map["Kick" := Kit[0].source, "HiHat" := Kit[1].source, "Snare" := Kit[2].source]
  {
    assert Kit[..2][..1] == Kit[..1];
    assert Kit[..1][..0] == [];
    assert PlayersRecord(Kit[..1]) == map["Kick" := Kit[0].source];
    assert PlayersRecord(Kit[..2]) == map["Kick" := Kit[0].source, "HiHat" := Kit[1].source];
  }
}
