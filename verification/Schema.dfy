/** The records every micro-world, predictor and gate exchange. */
module Schema {
  import opened Wrappers

  datatype Tool = Search | Read | Summarize

  /** An action with its parameters. Rendering an action as a key string is
      injective, so keys are compared here as actions. */
  datatype Action = Inspect | Press(digit: int) | Reset | Use(tool: Tool) | Move(door: string)

  datatype ActionName = InspectName | PressName | ResetName | ToolName(tool: Tool) | MoveName

  function NameOf(a: Action): ActionName {
    match a
    case Inspect => InspectName
    case Press(_) => PressName
    case Reset => ResetName
    case Use(t) => ToolName(t)
    case Move(_) => MoveName
  }

  datatype ActionSpec = ActionSpec(
    revealsInformation: bool := false,
    requiresKnownSlot: bool := false,
    terminalOnly: bool := false,
    allowedDoors: Option<seq<string>> := None)

  type Specs = map<ActionName, ActionSpec>

  predicate IsActionAllowed(a: Action, specs: Specs) {
    NameOf(a) in specs
  }

  predicate ValidAction(a: Action, specs: Specs) {
    && NameOf(a) in specs
    && (a.Move? && specs[MoveName].allowedDoors.Some? ==> a.door in specs[MoveName].allowedDoors.value)
  }

  type Vector = v: seq<real> | 0 < |v| witness [0.0]

  datatype SetupState = PreSetup | PostSetupDone | SafeNoHazard

  /** Facts only the model-needed worlds publish. */
  datatype SetupFacts = SetupFacts(setupState: SetupState, postSetupState: bool, compatibleButBadAction: bool)

  /** Facts of one environment family; the family is the prefix of the environment name.
      A hidden digit reads 0, a hidden tool reads None, a hidden colour reads "". */
  datatype FamilyFacts =
    | LockFacts(code: seq<int>, visibleCode: seq<int>, trapArmed: Option<bool>)
    | ToolFacts(sequence: seq<Tool>, visibleSequence: seq<Option<Tool>>, requiredTool: Option<Tool>,
                preconditionReady: Option<bool>)
    | MazeFacts(targetColor: string, visibleTargetColor: string, sawHint: bool, escaped: bool,
                hazardActive: Option<bool>)

  datatype Facts = Facts(
    currentIndex: int,
    currentSlotKnown: bool,
    progressFraction: real,
    isLastStepIndex: bool,
    canFinish: bool,
    fullyVisible: bool,
    steps: int,
    maxSteps: int,
    family: FamilyFacts,
    setup: Option<SetupFacts>)

  datatype WorldState = WorldState(vector: Vector, facts: Facts, terminal: bool)

  datatype Prediction = Prediction(
    nextVector: seq<real>,
    reward: real,
    terminal: bool,
    confidence: real,
    successProbability: Option<real>,
    progressDelta: Option<real>,
    informationGain: Option<real>)

  predicate InUnit(x: real) {
    0.0 <= x <= 1.0
  }

  predicate ValidPrediction(p: Prediction, expectedLen: nat) {
    && 0 < |p.nextVector| == expectedLen
    && InUnit(p.confidence)
    && (p.successProbability.Some? ==> InUnit(p.successProbability.value))
    && (p.informationGain.Some? ==> InUnit(p.informationGain.value))
  }

  datatype StepError = ContractError | IndexError

  /** What one environment step reports besides the next state. */
  datatype Transition<+W> = Transition(next: W, reward: real, success: bool, informationGain: real) {
    function To<V>(other: V): Transition<V> {
      Transition(other, reward, success, informationGain)
    }
  }

  /** Every digit of the code is on the keypad. */
  predicate Typable(code: seq<int>) {
    forall i :: 0 <= i < |code| ==> 1 <= code[i] <= 4
  }

  datatype Visibility = Visible | Hidden | PartialHidden

  /** Which slots of a sequence of length n are known after a reset. */
  function InitialMask(visibility: Visibility, n: nat): (mask: seq<bool>)
    ensures |mask| == n
    ensures forall i :: 0 <= i < n ==>
      (mask[i] <==> visibility.Visible? || (visibility.PartialHidden? && i < Max(1, n / 2)))
  {
    seq(n, i requires 0 <= i < n => visibility.Visible? || (visibility.PartialHidden? && i < Max(1, n / 2)))
  }

  /** How many slots from the given one on are still unknown. */
  function Unknown(known: seq<bool>, from: nat): nat
    decreases |known| - from
  {
    if from >= |known| then 0 else (if known[from] then 0 else 1) + Unknown(known, from + 1)
  }

  lemma {:induction false} UnknownAfterReveal(known: seq<bool>, at: nat, from: nat)
    requires at < |known| && !known[at]
    ensures Unknown(known[at := true], from) == Unknown(known, from) - if from <= at then 1 else 0
    decreases |known| - from
  {
    if from < |known| {
      UnknownAfterReveal(known, at, from + 1);
    }
  }

  lemma {:induction false} NoneUnknown(known: seq<bool>, from: nat)
    requires forall i :: from <= i < |known| ==> known[i]
    ensures Unknown(known, from) == 0
    decreases |known| - from
  {
    if from < |known| {
      NoneUnknown(known, from + 1);
    }
  }

  function Flag(b: bool): real {
    if b then 1.0 else 0.0
  }

  function Ratio(a: int, b: int): real
    requires 0 < b
  {
    a as real / b as real
  }

  /** One more slot of b moves the ratio by a positive amount. */
  lemma RatioStep(a: int, b: int)
    requires 0 < b
    ensures Ratio(a, b) < Ratio(a + 1, b)
  {
  }

  lemma RatioFalls(a: int, b: int)
    requires 0 < b && 0 <= a
    ensures 0.0 <= Ratio(Max(0, a - 1), b) <= Ratio(a, b)
  {
  }

  function Abs(x: real): (r: real)
    ensures 0.0 <= r && (r == x || r == -x)
  {
    if x < 0.0 then -x else x
  }
}
