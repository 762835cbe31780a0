/** The drum-grid component: a play/stop switch that drives the transport,
    and the rendering of the pattern (one clickable step per cell, a step
    indicator over the current column, the play button's label). */
module BeatSequencer {
  import opened StepGrid
  import UseSequence

  /** The shared audio transport, seen only through whether it runs. */
  class Transport {
    var running: bool

    constructor ()
      ensures !running
    {
      running := false;
    }

    method Start()
      modifies this
      ensures running
    {
      running := true;
    }

    method Stop()
      modifies this
      ensures !running
    {
      running := false;
    }
  }

  /** The play/stop hook: an `on` flag with a flip, and the effect that
      starts the transport while `on` holds and stops it otherwise. */
  class StartStop {
    var on: bool
    const transport: Transport

    /** Mounting: `on` starts false and the first run of the effect stops
        the transport. */
    constructor (transport: Transport)
      modifies transport
      ensures this.transport == transport
      ensures !on && !transport.running
    {
      on := false;
      this.transport := transport;
      new;
      transport.Stop();
    }

    /** The `toggle` callback: flips `on`. */
    method Toggle()
      modifies this`on
      ensures on == !old(on)
    {
      on := !on;
    }

    /** The effect on `on`: the transport runs exactly when `on` holds. */
    method SyncTransport()
      modifies transport
      ensures transport.running == on
    {
      if on {
        transport.Start();
      } else {
        transport.Stop();
      }
    }

    /** A press of the play button followed by the effect it triggers; the
        button's label then tells whether the transport runs. */
    method PressPlay()
      modifies this`on, transport
      ensures on == !old(on) && transport.running == on
      ensures PlayLabel(on) == (if transport.running then "Stop" else "Play")
    {
      Toggle();
      SyncTransport();
    }
  }

  /** Two presses put the switch, the transport and the label back. */
  method PressTwice(s: StartStop)
    modifies s, s.transport
    ensures s.on == old(s.on) && s.transport.running == old(s.on)
    ensures PlayLabel(s.on) == PlayLabel(old(s.on))
  {
    s.PressPlay();
    s.PressPlay();
  }

  /** The play button's label while the switch is `isPlaying`. */
  function PlayLabel(isPlaying: bool): (text: string)
    ensures text == "Stop" || text == "Play"
    ensures text == "Stop" <==> isPlaying
  {
    if isPlaying then "Stop" else "Play"
  }

  /** A rendered step: the cell it toggles when clicked, and whether it is
      drawn active. */
  datatype Step = Step(drumIndex: nat, stepIndex: nat, active: bool)

  /** The table of steps: one row per pattern row, one step per cell. */
  function RenderPattern(g: Grid): seq<seq<Step>> {
    seq(|g|, i requires 0 <= i < |g| =>
      seq(|g[i]|, j requires 0 <= j < |g[i]| => Step(i, j, Truthy(g[i][j]))))
  }

  /** The pattern after a click on step `s`. */
  function Click(g: Grid, s: Step): (r: Grid)
    requires s.drumIndex < |g| && s.stepIndex < |g[s.drumIndex]|
  {
    Toggled(g, s.drumIndex, s.stepIndex)
  }

  /** The click handler of the step drawn at (i, j): it toggles, in the
      sequencer, the cell that step stands for. */
  method ClickStep(sequencer: UseSequence.Sequencer, i: nat, j: nat)
    requires sequencer.Valid()
    requires i < |sequencer.stepsState| && j < |sequencer.stepsState[i]|
    modifies sequencer`stepsState
    ensures sequencer.Valid()
    ensures sequencer.stepsState ==
            Click(old(sequencer.stepsState), RenderPattern(old(sequencer.stepsState))[i][j])
    ensures sequencer.stepsState == Toggled(old(sequencer.stepsState), i, j)
  {
    var s := RenderPattern(sequencer.stepsState)[i][j];
    sequencer.ToggleStep(s.drumIndex, s.stepIndex);
  }

  /** The rendered table has the pattern's shape, every step targets its own
      cell, and a step is drawn active exactly when its cell is truthy. */
  lemma RenderPatternCells(g: Grid, i: nat, j: nat)
    requires i < |g| && j < |g[i]|
    ensures |RenderPattern(g)| == |g| && |RenderPattern(g)[i]| == |g[i]|
    ensures RenderPattern(g)[i][j].drumIndex == i && RenderPattern(g)[i][j].stepIndex == j
    ensures RenderPattern(g)[i][j].active <==> g[i][j] != 0
  {
  }

  /** Clicking the step drawn at (i, j) flips that step's active state and
      no other step's, and changes no other cell. */
  lemma ClickFlipsOnlyThatStep(g: Grid, i: nat, j: nat)
    requires i < |g| && j < |g[i]|
    ensures var s := RenderPattern(g)[i][j];
            s.drumIndex < |g| && s.stepIndex < |g[s.drumIndex]| &&
            var after := RenderPattern(Click(g, s));
            |after| == |g| && |after[i]| == |g[i]| &&
            after[i][j].active == !s.active &&
            forall a, b :: 0 <= a < |g| && 0 <= b < |g[a]| && (a != i || b != j) ==>
              Click(g, s)[a][b] == g[a][b] && after[a][b] == RenderPattern(g)[a][b]
  {
  }

  /** Width of one step in pixels. */
  const StepWidth: nat := 24

  /** Width of the step indicator in pixels. */
  const IndicatorWidth: nat := 24

  /** Left offset of the step indicator over column `currentStep`. */
  function IndicatorLeft(currentStep: nat): (left: nat)
    ensures left % StepWidth == 0 && left / StepWidth == currentStep
  {
    currentStep * 24
  }

  /** The indicator spans exactly the pixels of column `currentStep`, the
      column a pixel `x` belongs to being `x / StepWidth`. */
  lemma IndicatorCoversColumn(currentStep: nat, x: int)
    ensures IndicatorLeft(currentStep) <= x < IndicatorLeft(currentStep) + IndicatorWidth <==>
            (0 <= x && x / StepWidth == currentStep)
  {
  }
}
