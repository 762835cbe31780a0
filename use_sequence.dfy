/** The sequencer state behind the drum grid: the pattern, the step last
    published to the display, the tables derived from the kit, and the tick
    callback that the looping sequence calls once per step with the step's
    column and its scheduled time. Sample playback is an abstract trace: a
    tick returns the `start(time)` calls it makes, in the order it makes them. */
module UseSequence {
  import opened StepGrid
  import opened DrumKit

  /** One `start(time)` call on the player registered under `name`. */
  datatype Trigger = Start(name: string, time: real)

  /** `row[column]`; past the end of the row this reads `undefined`, which
      is falsy, so it stands for 0. */
  function CellAt(row: Row, column: nat): (v: int)
    ensures column < |row| ==> v == row[column]
    ensures column >= |row| ==> !Truthy(v)
  {
    if column < |row| then row[column] else 0
  }

  /** The rows whose cell at `column` is truthy: all of them, no other row,
      in ascending order. */
  function ActiveDrums(g: Grid, column: nat): (ks: seq<nat>)
    ensures forall i :: 0 <= i < |ks| ==> ks[i] < |g| && Truthy(CellAt(g[ks[i]], column))
    ensures forall k :: 0 <= k < |g| && Truthy(CellAt(g[k], column)) ==> k in ks
    ensures forall i, j :: 0 <= i < j < |ks| ==> ks[i] < ks[j]
    ensures |ks| <= |g|
  {
    if g == [] then [] else
    var init := g[..|g| - 1];
    assert forall k :: 0 <= k < |init| ==> init[k] == g[k];
    var prior := ActiveDrums(init, column);
    if Truthy(CellAt(g[|g| - 1], column)) then prior + [|g| - 1] else prior
  }

  /** The start calls a tick on `column` at `time` makes: one per active row,
      in row order, each on the player named by the row's drum position. */
  function Triggers(g: Grid, names: seq<string>, column: nat, time: real): (ts: seq<Trigger>)
    requires |g| <= |names|
    ensures |ts| <= |g|
    ensures forall i :: 0 <= i < |ts| ==> ts[i].time == time
  {
    var ks := ActiveDrums(g, column);
    seq(|ks|, i requires 0 <= i < |ks| => Start(names[ks[i]], time))
  }

  /** Walking one more row extends the triggers by that row's start call, if any. */
  lemma TriggersSnoc(g: Grid, names: seq<string>, column: nat, time: real, d: nat)
    requires d < |g| <= |names|
    ensures Triggers(g[..d + 1], names, column, time) ==
            Triggers(g[..d], names, column, time) +
            (if Truthy(CellAt(g[d], column)) then [Start(names[d], time)] else [])
  {
    assert g[..d + 1][..d] == g[..d];
  }

  /** A fresh pattern fires no drum on any column. */
  lemma NoTriggersOnInitialGrid(drums: nat, steps: nat, names: seq<string>, column: nat, time: real)
    requires drums <= |names|
    ensures Triggers(InitialStepState(drums, steps), names, column, time) == []
  {
    SilentColumn(InitialStepState(drums, steps), column);
  }

  /** A column with no truthy cell fires no row. */
  lemma {:induction false} SilentColumn(g: Grid, column: nat)
    requires forall k :: 0 <= k < |g| ==> !Truthy(CellAt(g[k], column))
    ensures ActiveDrums(g, column) == []
  {
    if g != [] {
      var n := |g| - 1;
      assert forall k :: 0 <= k < n ==> g[..n][k] == g[k];
      SilentColumn(g[..n], column);
    }
  }

  /** On the toggled pattern, the toggled column fires the toggled row
      exactly when the old pattern did not, and every other row as before;
      every other column fires the same rows as before. */
  lemma ToggledTriggers(g: Grid, drumIndex: nat, stepIndex: nat, column: nat)
    requires drumIndex < |g| && stepIndex < |g[drumIndex]|
    ensures column != stepIndex ==>
              ActiveDrums(Toggled(g, drumIndex, stepIndex), column) == ActiveDrums(g, column)
    ensures drumIndex in ActiveDrums(Toggled(g, drumIndex, stepIndex), stepIndex) <==>
              drumIndex !in ActiveDrums(g, stepIndex)
    ensures forall k :: 0 <= k < |g| && k != drumIndex ==>
              (k in ActiveDrums(Toggled(g, drumIndex, stepIndex), column) <==> k in ActiveDrums(g, column))
  {
    var t := Toggled(g, drumIndex, stepIndex);
    forall k | 0 <= k < |g| && (k != drumIndex || column != stepIndex)
      ensures CellAt(t[k], column) == CellAt(g[k], column)
    {
    }
    if column != stepIndex {
      SameColumnSameActive(g, t, column);
    }
  }

  /** Patterns that agree on a column fire the same rows on it. */
  lemma {:induction false} SameColumnSameActive(g: Grid, h: Grid, column: nat)
    requires |g| == |h|
    requires forall k :: 0 <= k < |g| ==> CellAt(g[k], column) == CellAt(h[k], column)
    ensures ActiveDrums(g, column) == ActiveDrums(h, column)
  {
    if g != [] {
      var n := |g| - 1;
      assert forall k :: 0 <= k < n ==> g[..n][k] == g[k] && h[..n][k] == h[k];
      SameColumnSameActive(g[..n], h[..n], column);
    }
  }

  /** The columns the looping sequence walks through: every column of the
      pattern once, in order, and nothing outside it. */
  function SequenceEvents(stepsLength: nat): (events: seq<nat>)
    ensures |events| == stepsLength
    ensures forall i :: 0 <= i < stepsLength ==> events[i] == i
    ensures forall c: nat :: c in events <==> c < stepsLength
  {
    var events := seq(stepsLength, i => i);
    assert forall c: nat :: c < stepsLength ==> c in events by {
      forall c: nat | c < stepsLength ensures c in events {
        assert events[c] == c;
      }
    }
    events
  }

  /** The drum sequencer hook: the pattern state, the published step, and
      the three refs through which the tick callback sees the latest pattern,
      drum positions and players. */
  class Sequencer {
    const drumKit: seq<Drum>
    const stepsLength: nat
    var stepsState: Grid
    var currentStep: nat
    var stepStateRef: Grid
    var drumPositionsRef: seq<string>
    var playersRef: map<string, string>

    ghost predicate Valid()
      reads this
    {
      && Shaped(stepsState, |drumKit|, stepsLength) && Binary(stepsState)
      && Shaped(stepStateRef, |drumKit|, stepsLength) && Binary(stepStateRef)
      && drumPositionsRef == DrumPositions(drumKit)
      && playersRef == PlayersRecord(drumKit)
      && (currentStep == 0 || currentStep < stepsLength)
    }

    /** Mounting: an all-zero pattern, step 0, and the mount effects that
        fill the refs. */
    constructor (drumKit: seq<Drum>, stepsLength: nat)
      ensures Valid()
      ensures this.drumKit == drumKit && this.stepsLength == stepsLength
      ensures stepsState == InitialStepState(|drumKit|, stepsLength) && currentStep == 0
      ensures stepStateRef == stepsState
    {
      this.drumKit := drumKit;
      this.stepsLength := stepsLength;
      stepsState := InitialStepState(|drumKit|, stepsLength);
      currentStep := 0;
      stepStateRef := InitialStepState(|drumKit|, stepsLength);
      drumPositionsRef := DrumPositions(drumKit);
      playersRef := PlayersRecord(drumKit);
    }

    /** The edit behind a click on cell (drumIndex, stepIndex). */
    method ToggleStep(drumIndex: nat, stepIndex: nat)
      requires Valid()
      requires drumIndex < |drumKit| && stepIndex < stepsLength
      modifies this`stepsState
      ensures Valid()
      ensures stepsState == Toggled(old(stepsState), drumIndex, stepIndex)
    {
      ToggledShaped(stepsState, |drumKit|, stepsLength, drumIndex, stepIndex);
      ToggledBinary(stepsState, drumIndex, stepIndex);
      stepsState := Toggled(stepsState, drumIndex, stepIndex);
    }

    /** The effect that runs after the pattern changes: the tick callback's
        ref now holds the latest pattern. */
    method SyncStepStateRef()
      requires Valid()
      modifies this`stepStateRef
      ensures Valid()
      ensures stepStateRef == stepsState
    {
      stepStateRef := stepsState;
    }

    /** The tick callback for one event of the sequence: start, in row order,
        the player of every row whose cell at `column` is truthy, all at
        `time`, then publish `column` as the current step. */
    method Tick(time: real, column: nat) returns (started: seq<Trigger>)
      requires Valid()
      requires column in SequenceEvents(stepsLength)
      modifies this`currentStep
      ensures Valid()
      ensures started == Triggers(stepStateRef, drumPositionsRef, column, time)
      ensures forall i :: 0 <= i < |started| ==> started[i].name in playersRef && started[i].time == time
      ensures currentStep == column && currentStep < stepsLength
    {
      var grid := stepStateRef;
      var stepStateColumn := seq(|grid|, r requires 0 <= r < |grid| => CellAt(grid[r], column));
      started := [];
      var drumIndex := 0;
      while drumIndex < |stepStateColumn|
        invariant drumIndex <= |stepStateColumn|
        invariant started == Triggers(grid[..drumIndex], drumPositionsRef, column, time)
      {
        TriggersSnoc(grid, drumPositionsRef, column, time, drumIndex);
        if Truthy(stepStateColumn[drumIndex]) {
          started := started + [Start(drumPositionsRef[drumIndex], time)];
        }
        drumIndex := drumIndex + 1;
      }
      assert grid[..drumIndex] == grid;
      forall i | 0 <= i < |started|
        ensures started[i].name in playersRef && started[i].time == time
      {
        PositionsResolve(drumKit, ActiveDrums(grid, column)[i]);
      }
      currentStep := column;
    }
  }

  /** A click reaches the tick callback once the pattern effect has run: the
      edit, then the effect, then a tick starts the rows of the toggled
      pattern. Without the effect in between, the tick still reads the ref's
      older pattern. */
  method EditThenTick(s: Sequencer, drumIndex: nat, stepIndex: nat, time: real, column: nat)
    returns (started: seq<Trigger>)
    requires s.Valid()
    requires drumIndex < |s.drumKit| && stepIndex < s.stepsLength && column < s.stepsLength
    modifies s
    ensures s.Valid()
    ensures s.stepsState == s.stepStateRef == Toggled(old(s.stepsState), drumIndex, stepIndex)
    ensures started == Triggers(Toggled(old(s.stepsState), drumIndex, stepIndex), s.drumPositionsRef, column, time)
    ensures s.currentStep == column
  {
    s.ToggleStep(drumIndex, stepIndex);
    s.SyncStepStateRef();
    started := s.Tick(time, column);
  }
}
