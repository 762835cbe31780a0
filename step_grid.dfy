/** The drum pattern of the beat sequencer: one row per drum of the kit, one
    column per step, every cell a number that the sequencer reads for its
    truthiness (0 is off, anything else is on). Patterns are values: editing a
    cell produces a new pattern and leaves the old one as it was. */
module StepGrid {

  type Row = seq<int>
  type Grid = seq<Row>

  /** JavaScript truthiness of an integer cell: 0 is the only falsy one. */
  predicate Truthy(v: int) {
    v != 0
  }

  /** `g` has `drums` rows of `steps` cells each. */
  predicate Shaped(g: Grid, drums: nat, steps: nat) {
    |g| == drums && forall i :: 0 <= i < |g| ==> |g[i]| == steps
  }

  /** Every cell of `g` is 0 or 1. */
  predicate Binary(g: Grid) {
    forall i, j :: 0 <= i < |g| && 0 <= j < |g[i]| ==> g[i][j] == 0 || g[i][j] == 1
  }

  /** The pattern a sequencer starts from: `drumKitLength` rows of
      `stepsLength` zeros. */
  function InitialStepState(drumKitLength: nat, stepsLength: nat): (g: Grid)
    ensures Shaped(g, drumKitLength, stepsLength)
    ensures forall i, j :: 0 <= i < |g| && 0 <= j < |g[i]| ==> !Truthy(g[i][j])
    ensures Binary(g)
  {
    var row := seq(stepsLength, _ => 0);
    seq(drumKitLength, _ => row)
  }

  /** The value a toggled cell takes: 0 when it was truthy, 1 when it was falsy. */
  function Flip(v: int): (w: int)
    ensures w == 0 || w == 1
    ensures Truthy(w) <==> !Truthy(v)
  {
    if Truthy(v) then 0 else 1
  }

  /** The pattern after clicking cell (drumIndex, stepIndex): a copy of `g`
      in which only that cell is flipped. */
  function Toggled(g: Grid, drumIndex: nat, stepIndex: nat): (r: Grid)
    requires drumIndex < |g| && stepIndex < |g[drumIndex]|
    ensures |r| == |g| && forall i :: 0 <= i < |g| ==> |r[i]| == |g[i]|
    ensures r[drumIndex][stepIndex] == (if g[drumIndex][stepIndex] == 0 then 1 else 0)
    ensures forall i, j :: 0 <= i < |g| && 0 <= j < |g[i]| && (i != drumIndex || j != stepIndex) ==>
              r[i][j] == g[i][j]
  {
    var row := g[drumIndex];
    g[drumIndex := row[stepIndex := Flip(row[stepIndex])]]
  }

  /** Toggling keeps the pattern's dimensions. */
  lemma ToggledShaped(g: Grid, drums: nat, steps: nat, drumIndex: nat, stepIndex: nat)
    requires Shaped(g, drums, steps) && drumIndex < drums && stepIndex < steps
    ensures Shaped(Toggled(g, drumIndex, stepIndex), drums, steps)
  {
  }

  /** Toggling a 0/1 pattern gives a 0/1 pattern. */
  lemma ToggledBinary(g: Grid, drumIndex: nat, stepIndex: nat)
    requires drumIndex < |g| && stepIndex < |g[drumIndex]|
    requires Binary(g)
    ensures Binary(Toggled(g, drumIndex, stepIndex))
  {
  }

  /** Clicking the same 0/1 cell twice gives back the pattern it started from. */
  lemma ToggledInvolution(g: Grid, drumIndex: nat, stepIndex: nat)
    requires drumIndex < |g| && stepIndex < |g[drumIndex]|
    requires g[drumIndex][stepIndex] == 0 || g[drumIndex][stepIndex] == 1
    ensures Toggled(Toggled(g, drumIndex, stepIndex), drumIndex, stepIndex) == g
  {
    var r := Toggled(Toggled(g, drumIndex, stepIndex), drumIndex, stepIndex);
    assert |r| == |g|;
    forall i | 0 <= i < |g|
      ensures r[i] == g[i]
    {
      assert |r[i]| == |g[i]|;
    }
  }

  /** The involution needs a 0/1 cell: a cell holding 2 comes back as 1. */
  lemma ToggledTwiceOnTwo()
    ensures Toggled(Toggled([[2]], 0, 0), 0, 0) == [[1]]
  {
    var once := Toggled([[2]], 0, 0);
    assert once[0][0] == 0 && once[0] == [0];
    var twice := Toggled(once, 0, 0);
    assert twice[0][0] == 1 && twice[0] == [1];
  }
}
