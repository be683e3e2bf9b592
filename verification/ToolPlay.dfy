/** How the gate plays the tool chain: the prior alone finishes it. */
module ToolPlay {
  import opened Wrappers
  import opened Schema
  import opened Gate
  import opened Episodes
  import opened Accuracy
  import opened ToolWorlds

  function ToolDistance(w: ToolChain): nat {
    SlotsLeft(w) + Unknown(w.known, w.stage)
  }

  function SlotsLeft(w: ToolChain): nat {
    Max(0, |w.sequence| - w.stage)
  }

  const TOOL: Sim<ToolChain> := Sim(
    Step, View, (w: ToolChain) => SpecsFor(w.sequence), Candidates, Expert,
    (w: ToolChain) => w.stage >= |w.sequence|, (w: ToolChain) => w.steps, (w: ToolChain) => w.maxSteps,
    ToolDistance, SlotsLeft)

  lemma ToolLawful()
    ensures TOOL.Lawful()
  {
    forall w, a | TOOL.step(w, a).Ok? ensures TOOL.Settles(w, a) {
      assert Settled(w, Step(w, a).value);
    }
  }

  /** Some tool of the chain can reveal a slot. */
  predicate Revealing(sequence: seq<Tool>) {
    exists t :: t in sequence && Reveals(t)
  }

  lemma ToolsOffered(w: ToolChain)
    ensures forall a :: a in Candidates(w) <==> a.Use? && a.tool in w.sequence
    ensures forall a :: a in Candidates(w) ==> ValidAction(a, SpecsFor(w.sequence))
  {
    var tools := Distinct(w.sequence);
    forall a: Action | a.Use? && a.tool in w.sequence ensures a in Candidates(w) {
      var i :| 0 <= i < |tools| && tools[i] == a.tool;
      assert Candidates(w)[i] == a;
    }
  }

  /** Where the slot is unknown the gate reveals it; where it is known it uses the expected tool.
      This holds for prior_only with any predictor, and for hybrid with any predictor above the block. */
  lemma ToolGateAdvances(w: ToolChain, mode: Mode, predictor: Predictor<ToolChain>, a: Action)
    requires w.stage < |w.sequence| && (SlotKnown(w) || Revealing(w.sequence))
    requires mode == PriorOnly || (mode == Hybrid && AboveBlock(TOOL, predictor, w))
    requires Decide(TOOL, mode, predictor, w) == Ok(a)
    ensures a.Use? && a.tool in w.sequence
    ensures if SlotKnown(w) then a.tool == Expected(w) else Reveals(a.tool)
  {
    ToolsOffered(w);
    DecidedAmongValid(TOOL, mode, predictor, w, a);
    assert RequiredAction(View(w)) == if SlotKnown(w) then Some(Use(Expected(w))) else None;
    var better: Tool :| better in w.sequence && if SlotKnown(w) then better == Expected(w) else Reveals(better);
    assert Use(better) in TOOL.candidates(w);
    ToolScores(w, mode, predictor, a.tool, better);
  }

  lemma ToolScores(w: ToolChain, mode: Mode, predictor: Predictor<ToolChain>, t: Tool, better: Tool)
    requires w.stage < |w.sequence| && t in w.sequence && better in w.sequence
    requires if SlotKnown(w) then better == Expected(w) else Reveals(better)
    requires mode == PriorOnly || (mode == Hybrid && AboveBlock(TOOL, predictor, w))
    requires ValidPrediction(predictor(w, Use(t)), 3) && ValidPrediction(predictor(w, Use(better)), 3)
    ensures var rating := RatingAt(TOOL, mode, predictor, w);
      rating(Use(t)).Ok? && rating(Use(better)).Ok?
      && ((if SlotKnown(w) then t != Expected(w) else !Reveals(t)) ==> rating(Use(t)).value < rating(Use(better)).value)
  {
    ToolsOffered(w);
    assert Use(better) in TOOL.candidates(w);
    assert RequiredAction(View(w)) == if SlotKnown(w) then Some(Use(Expected(w))) else None;
    assert w.stage == |w.sequence| - 1 && t == Summarize ==> Expected(w) == Summarize by {
      var i :| 0 <= i < |w.sequence| && w.sequence[i] == t;
    }
  }

  lemma ToolAdvanceIsNearer(w: ToolChain, t: Tool)
    requires w.stage < |w.sequence| && t in w.sequence
    requires if SlotKnown(w) then t == Expected(w) else Reveals(t)
    ensures Nearer(TOOL, w, Use(t))
  {
    if !SlotKnown(w) {
      UnknownAfterReveal(w.known, w.stage, w.stage);
    }
  }

  /** The unfinished states of the episodes of one chain. */
  predicate InEpisode(sequence: seq<Tool>, maxSteps: int, w: ToolChain) {
    w.sequence == sequence && w.maxSteps == maxSteps && w.stage < |sequence|
  }

  /** prior_only, and hybrid above the block, finish a chain of any visibility in exactly n + u steps. */
  lemma ToolGateWins(sequence: seq<Tool>, maxSteps: int, visibility: Visibility, mode: Mode,
      predictor: Predictor<ToolChain>)
    requires 0 < |sequence| && 0 < maxSteps && SummarizeLast(sequence)
    requires Revealing(sequence) || visibility.Visible?
    requires |sequence| + Unknown(InitialMask(visibility, |sequence|), 0) <= maxSteps
    requires mode == PriorOnly || mode == Hybrid
    requires mode == Hybrid ==>
      forall w: ToolChain :: InEpisode(sequence, maxSteps, w) ==> AboveBlock(TOOL, predictor, w)
    requires forall w: ToolChain, a ::
      InEpisode(sequence, maxSteps, w) && a in Candidates(w) ==> ValidPrediction(predictor(w, a), 3)
    ensures WinsIn(TOOL, GatePolicy(TOOL, mode, predictor), Start(sequence, maxSteps, visibility),
                   |sequence| + Unknown(InitialMask(visibility, |sequence|), 0))
  {
    var region := (w: ToolChain) =>
      w.sequence == sequence && w.maxSteps == maxSteps
      && (!Revealing(sequence) ==> forall i :: 0 <= i < |w.known| ==> w.known[i]);
    var policy := GatePolicy(TOOL, mode, predictor);
    forall w: ToolChain | region(w) && !TOOL.success(w) ensures Progresses(TOOL, policy, region, w) {
      ToolDecides(w, mode, predictor);
      var a := policy(w).value;
      ToolGateAdvances(w, mode, predictor, a);
      ToolAdvanceIsNearer(w, a.tool);
      assert Settled(w, Step(w, a).value);
    }
    ToolLawful();
    ApproachWins(TOOL, policy, region, Start(sequence, maxSteps, visibility));
  }

  /** With valid predictions the gate always decides. */
  lemma ToolDecides(w: ToolChain, mode: Mode, predictor: Predictor<ToolChain>)
    requires forall a :: a in Candidates(w) ==> ValidPrediction(predictor(w, a), 3)
    ensures Decide(TOOL, mode, predictor, w).Ok?
  {
    ToolsOffered(w);
    LegalKeepsAll(Candidates(w), SpecsFor(w.sequence));
    assert w.sequence[0] in Distinct(w.sequence);
    forall a | a in Candidates(w) ensures RatingAt(TOOL, mode, predictor, w)(a).Ok? {
    }
  }

  /** From any state, no sequence of actions finishes the chain in fewer steps than it has slots left. */
  lemma ToolShortest(w: ToolChain, actions: seq<Action>)
    requires Follow(TOOL, w, actions).Ok? && TOOL.success(Follow(TOOL, w, actions).value)
    ensures |actions| >= |w.sequence| - w.stage
  {
    ToolLawful();
    NoShortcut(TOOL, w, actions);
  }

  /** In a hidden chain without a search slot the expert asks for a tool the world rejects. */
  lemma ToolExpertCanBeIllegal(w: ToolChain)
    ensures Step(w, Expert(w)) == Err(ContractError)
       <==> !SlotKnown(w) && Expected(w) == Summarize && Search !in w.sequence
  {
    assert Expected(w) in w.sequence;
  }

  /** For example after a reset of the chain of a single hidden summarize. */
  lemma ToolExpertIsIllegal(maxSteps: int)
    requires 0 < maxSteps
    ensures var w := Start([Summarize], maxSteps, Hidden);
      !View(w).terminal && Step(w, Expert(w)) == Err(ContractError)
  {
    ToolExpertCanBeIllegal(Start([Summarize], maxSteps, Hidden));
  }
}
