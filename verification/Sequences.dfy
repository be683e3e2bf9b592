/** Which action sequences reach the goal in the model-needed worlds, said of the sequence alone. */
module Sequences {
  import opened Wrappers
  import opened Schema
  import opened Episodes
  import LockTrapWorlds
  import LockTrapPlay
  import MazeHazardWorlds
  import MazeHazardPlay
  import ToolPreconditionWorlds
  import ToolPreconditionPlay

  lemma {:induction false} FollowJoins<W(!new)>(sim: Sim<W>, w: W, first: seq<Action>, second: seq<Action>)
    ensures Follow(sim, w, first + second)
         == if Follow(sim, w, first).Ok? then Follow(sim, Follow(sim, w, first).value, second)
           else Follow(sim, w, first)
    decreases |first|
  {
    if first == [] {
      assert first + second == second;
    } else {
      assert (first + second)[0] == first[0] && (first + second)[1..] == first[1..] + second;
      if sim.step(w, first[0]).Ok? {
        FollowJoins(sim, sim.step(w, first[0]).value.next, first[1..], second);
      }
    }
  }

  // ---------- the trapped lock ----------

  /** What comes after the last reset. */
  function SinceReset(actions: seq<Action>): seq<Action> {
    if actions == [] then [] else
    var last := actions[|actions| - 1];
    if last == Reset then [] else SinceReset(actions[..|actions| - 1]) + [last]
  }

  /** What comes after the first inspect, if there is one. */
  function SinceLook(actions: seq<Action>): Option<seq<Action>> {
    if actions == [] then None else if actions[0] == Inspect then Some(actions[1..]) else SinceLook(actions[1..])
  }

  /** The digits pressed. */
  function Digits(actions: seq<Action>): seq<int> {
    if actions == [] then [] else
    (if actions[0].Press? then [actions[0].digit] else []) + Digits(actions[1..])
  }

  /** The digits finish the code from position p on: they are the rest of it, or they break it off with a wrong
      digit and go on to spell it from the beginning. */
  ghost predicate Spells(code: seq<int>, p: nat, digits: seq<int>)
    requires p <= |code|
    decreases |digits|, 1
  {
    digits == code[p..] || exists n :: StartsAnew(code, p, digits, n)
  }

  /** The first n digits are right, the next one is wrong, and those after it spell the code. */
  ghost predicate StartsAnew(code: seq<int>, p: nat, digits: seq<int>, n: int)
    requires p <= |code|
    decreases |digits|, 0
  {
    && 0 <= n < |digits| && p + n < |code|
    && (forall i :: 0 <= i < n ==> digits[i] == code[p + i])
    && digits[n] != code[p + n]
    && Spells(code, 0, digits[n + 1..])
  }

  /** After the last reset there is a look, and the digits after it spell the code. */
  ghost predicate Opens(code: seq<int>, actions: seq<Action>) {
    var looked := SinceLook(SinceReset(actions));
    looked.Some? && Spells(code, 0, Digits(looked.value))
  }

  lemma SpellsBehind(code: seq<int>, p: nat, digits: seq<int>)
    requires p < |code| && digits != [] && digits[0] == code[p] && Spells(code, p, digits)
    ensures Spells(code, p + 1, digits[1..])
  {
    var rest := digits[1..];
    if digits == code[p..] {
      assert rest == code[p + 1..];
    } else {
      var n :| StartsAnew(code, p, digits, n);
      assert n > 0 && rest[n..] == digits[n + 1..];
      assert StartsAnew(code, p + 1, rest, n - 1);
    }
  }

  lemma SpellsBefore(code: seq<int>, p: nat, digits: seq<int>)
    requires p < |code| && digits != [] && digits[0] == code[p] && Spells(code, p + 1, digits[1..])
    ensures Spells(code, p, digits)
  {
    var rest := digits[1..];
    if rest == code[p + 1..] {
      assert digits == [digits[0]] + rest && code[p..] == [code[p]] + code[p + 1..];
    } else {
      var n :| StartsAnew(code, p + 1, rest, n);
      var next := n + 1;
      assert rest[n + 1..] == digits[next + 1..];
      assert forall i :: 0 < i < next ==> digits[i] == rest[i - 1];
      assert StartsAnew(code, p, digits, next);
    }
  }

  lemma WrongStartsAnew(code: seq<int>, p: nat, digits: seq<int>)
    requires p < |code| && digits != [] && digits[0] != code[p] && Spells(code, p, digits)
    ensures Spells(code, 0, digits[1..])
  {
    assert code[p..][0] == code[p];
    var n :| StartsAnew(code, p, digits, n);
    assert n == 0;
  }

  lemma SpellsWrong(code: seq<int>, p: nat, digits: seq<int>)
    requires p < |code| && digits != [] && digits[0] != code[p]
    ensures Spells(code, p, digits) <==> Spells(code, 0, digits[1..])
  {
    if Spells(code, p, digits) {
      WrongStartsAnew(code, p, digits);
    }
    if Spells(code, 0, digits[1..]) {
      assert StartsAnew(code, p, digits, 0);
    }
  }

  predicate NoReset(actions: seq<Action>) {
    forall i :: 0 <= i < |actions| ==> actions[i] != Reset
  }

  /** One press on a disarmed lock: the digits after it must spell the code from where it leads. */
  lemma PressSpells(w: LockTrapWorlds.TrapLock, digit: int, rest: seq<int>)
    requires !w.trapArmed && w.progress < |w.code|
    ensures LockTrapWorlds.Step(w, Press(digit)).Ok?
    ensures var next := LockTrapWorlds.Step(w, Press(digit)).value.next;
      && !next.trapArmed && next.code == w.code
      && (Spells(w.code, w.progress, [digit] + rest) <==> Spells(w.code, next.progress, rest))
  {
    var digits := [digit] + rest;
    assert digits[1..] == rest;
    if digit == w.code[w.progress] {
      if Spells(w.code, w.progress, digits) {
        SpellsBehind(w.code, w.progress, digits);
      }
      if Spells(w.code, w.progress + 1, rest) {
        SpellsBefore(w.code, w.progress, digits);
      }
    } else {
      SpellsWrong(w.code, w.progress, digits);
    }
  }

  lemma LookStays(w: LockTrapWorlds.TrapLock)
    requires !w.trapArmed
    ensures LockTrapWorlds.Step(w, Inspect).Ok?
    ensures var next := LockTrapWorlds.Step(w, Inspect).value.next;
      !next.trapArmed && next.code == w.code && next.progress == w.progress
  {
  }

  /** Once the trap is disarmed, and until a reset, only the digits count. */
  lemma {:induction false} DisarmedOpens(w: LockTrapWorlds.TrapLock, actions: seq<Action>)
    requires !w.trapArmed && NoReset(actions) && Follow(LockTrapPlay.TRAP, w, actions).Ok?
    ensures var end := Follow(LockTrapPlay.TRAP, w, actions).value;
      end.progress >= |w.code| <==> Spells(w.code, w.progress, Digits(actions))
    decreases |actions|
  {
    if actions == [] {
      assert Digits(actions) == [];
    } else {
      var a, rest := actions[0], actions[1..];
      assert LockTrapPlay.TRAP.step(w, a) == LockTrapWorlds.Step(w, a);
      assert NoReset(rest) && a != Reset;
      if a.Press? {
        assert Digits(actions) == [a.digit] + Digits(rest);
        PressSpells(w, a.digit, Digits(rest));
      } else {
        assert Digits(actions) == Digits(rest);
        LookStays(w);
      }
      DisarmedOpens(LockTrapWorlds.Step(w, a).value.next, rest);
    }
  }

  /** While it is armed, nothing counts before the first look. */
  lemma {:induction false} ArmedOpens(w: LockTrapWorlds.TrapLock, actions: seq<Action>)
    requires w.trapArmed && w.progress == 0 && NoReset(actions) && Follow(LockTrapPlay.TRAP, w, actions).Ok?
    ensures var end, looked := Follow(LockTrapPlay.TRAP, w, actions).value, SinceLook(actions);
      end.progress >= |w.code| <==> looked.Some? && Spells(w.code, 0, Digits(looked.value))
    decreases |actions|
  {
    if actions != [] {
      var a, rest := actions[0], actions[1..];
      var next := LockTrapWorlds.Step(w, a).value.next;
      assert NoReset(rest) && a != Reset;
      if a == Inspect {
        DisarmedOpens(next, rest);
      } else {
        ArmedOpens(next, rest);
      }
    }
  }

  /** Cutting at the last reset. */
  lemma {:induction false} CutAtReset(actions: seq<Action>) returns (before: seq<Action>)
    ensures NoReset(SinceReset(actions))
    ensures actions == SinceReset(actions)
         || (actions == before + [Reset] + SinceReset(actions))
  {
    before := [];
    if actions != [] {
      var front, last := actions[..|actions| - 1], actions[|actions| - 1];
      assert actions == front + [last];
      if last == Reset {
        before := front;
        assert actions == before + [Reset] + [];
      } else {
        before := CutAtReset(front);
        if front != SinceReset(front) {
          assert actions == before + [Reset] + (SinceReset(front) + [last]);
        }
      }
    }
  }

  lemma ResetRearms(w: LockTrapWorlds.TrapLock)
    ensures LockTrapWorlds.Step(w, Reset).Ok?
    ensures var next := LockTrapWorlds.Step(w, Reset).value.next;
      next.trapArmed && next.progress == 0 && next.code == w.code
    ensures var next := LockTrapWorlds.Step(w, Reset).value.next;
      Follow(LockTrapPlay.TRAP, w, [Reset]) == Ok(next)
  {
    assert [Reset][1..] == [];
    assert LockTrapPlay.TRAP.step(w, Reset) == LockTrapWorlds.Step(w, Reset);
  }

  lemma {:induction false} CodeStays(w: LockTrapWorlds.TrapLock, actions: seq<Action>)
    requires Follow(LockTrapPlay.TRAP, w, actions).Ok?
    ensures Follow(LockTrapPlay.TRAP, w, actions).value.code == w.code
    decreases |actions|
  {
    if actions != [] {
      var t := LockTrapWorlds.Step(w, actions[0]).value;
      assert LockTrapWorlds.Settled(w, t);
      CodeStays(t.next, actions[1..]);
    }
  }

  /** Whether a sequence that the lock accepts leaves it open, said of the sequence alone: after the last reset there
      must be a look, and the digits pressed after it must spell the code. */
  lemma TrapOpensExactly(code: seq<int>, maxSteps: int, actions: seq<Action>)
    requires 0 < |code| && 0 < maxSteps && Follow(LockTrapPlay.TRAP, LockTrapWorlds.Start(code, maxSteps), actions).Ok?
    ensures LockTrapPlay.TRAP.success(Follow(LockTrapPlay.TRAP, LockTrapWorlds.Start(code, maxSteps), actions).value)
       <==> Opens(code, actions)
  {
    var start, tail := LockTrapWorlds.Start(code, maxSteps), SinceReset(actions);
    var before := CutAtReset(actions);
    if actions == tail {
      ArmedOpens(start, actions);
      CodeStays(start, actions);
    } else {
      FollowJoins(LockTrapPlay.TRAP, start, before + [Reset], tail);
      FollowJoins(LockTrapPlay.TRAP, start, before, [Reset]);
      var w := Follow(LockTrapPlay.TRAP, start, before).value;
      CodeStays(start, before);
      ResetRearms(w);
      var again := LockTrapWorlds.Step(w, Reset).value.next;
      ArmedOpens(again, tail);
      CodeStays(again, tail);
    }
  }

  /** It is not enough that the digits come one after another: a wrong digit sends the lock back to the beginning and is
      not itself tried as a first digit. */
  lemma WrongDigitIsLost(maxSteps: int)
    requires 0 < maxSteps
    ensures var actions := [Inspect, Press(1), Press(1), Press(1), Press(2)];
      var end := Follow(LockTrapPlay.TRAP, LockTrapWorlds.Start([1, 1, 2], maxSteps), actions);
      end.Ok? && end.value.progress == 0
  {
    var a := LockTrapWorlds.Start([1, 1, 2], maxSteps);
    var b := LockTrapWorlds.Step(a, Inspect).value.next;
    var c := LockTrapWorlds.Step(b, Press(1)).value.next;
    var d := LockTrapWorlds.Step(c, Press(1)).value.next;
    var e := LockTrapWorlds.Step(d, Press(1)).value.next;
    var f := LockTrapWorlds.Step(e, Press(2)).value.next;
    assert c.progress == 1 && d.progress == 2 && e.progress == 0 && f.progress == 0;
    FollowsOne(e, Press(2), [], f);
    FollowsOne(d, Press(1), [Press(2)], f);
    FollowsOne(c, Press(1), [Press(1), Press(2)], f);
    FollowsOne(b, Press(1), [Press(1), Press(1), Press(2)], f);
    FollowsOne(a, Inspect, [Press(1), Press(1), Press(1), Press(2)], f);
  }

  lemma FollowsOne(w: LockTrapWorlds.TrapLock, a: Action, rest: seq<Action>, end: LockTrapWorlds.TrapLock)
    requires LockTrapWorlds.Step(w, a).Ok?
    requires Follow(LockTrapPlay.TRAP, LockTrapWorlds.Step(w, a).value.next, rest) == Ok(end)
    ensures Follow(LockTrapPlay.TRAP, w, [a] + rest) == Ok(end)
  {
    assert ([a] + rest)[0] == a && ([a] + rest)[1..] == rest;
    assert LockTrapPlay.TRAP.step(w, a) == LockTrapWorlds.Step(w, a);
  }

  // ---------- the hazardous maze ----------

  /** The right door is opened somewhere, behind a look if the hazard is active. */
  predicate Escapes(target: string, active: bool, actions: seq<Action>) {
    exists i :: 0 <= i < |actions| && actions[i] == Move(target) && (active ==> Inspect in actions[..i])
  }

  lemma {:induction false} EscapedStays(w: MazeHazardWorlds.HazardMaze, actions: seq<Action>)
    requires w.now.escaped && Follow(MazeHazardPlay.HAZARD, w, actions).Ok?
    ensures Follow(MazeHazardPlay.HAZARD, w, actions).value.now.escaped
    decreases |actions|
  {
    if actions != [] {
      EscapedStays(MazeHazardWorlds.Step(w, actions[0]).value.next, actions[1..]);
    }
  }

  lemma EscapesLater(target: string, active: bool, clear: bool, actions: seq<Action>)
    requires actions != [] && actions[0] != Move(target)
    requires clear == (active && actions[0] != Inspect)
    ensures Escapes(target, active, actions) <==> Escapes(target, clear, actions[1..])
  {
    var rest := actions[1..];
    if i :| 0 <= i < |actions| && actions[i] == Move(target) && (active ==> Inspect in actions[..i]) {
      assert i > 0 && rest[i - 1] == Move(target) && actions[..i] == [actions[0]] + rest[..i - 1];
    }
    if i :| 0 <= i < |rest| && rest[i] == Move(target) && (clear ==> Inspect in rest[..i]) {
      var next := i + 1;
      assert actions[next] == Move(target) && actions[..next] == [actions[0]] + rest[..i];
    }
  }

  lemma EscapesNow(target: string, active: bool, actions: seq<Action>)
    requires actions != [] && actions[0] == Move(target)
    ensures !active ==> Escapes(target, active, actions)
    ensures active ==> (Escapes(target, active, actions) <==> Escapes(target, active, actions[1..]))
  {
    var rest := actions[1..];
    if i :| active && 0 <= i < |actions| && actions[i] == Move(target) && Inspect in actions[..i] {
      assert i > 0 && rest[i - 1] == Move(target) && actions[..i] == [actions[0]] + rest[..i - 1];
    }
    if i :| active && 0 <= i < |rest| && rest[i] == Move(target) && Inspect in rest[..i] {
      var next := i + 1;
      assert actions[next] == Move(target) && actions[..next] == [actions[0]] + rest[..i];
    }
  }

  /** From every state that is not escaped, whether an accepted sequence escapes, said of the sequence alone. */
  lemma {:induction false} HazardEscapesExactly(w: MazeHazardWorlds.HazardMaze, actions: seq<Action>)
    requires MazeHazardPlay.Playable(w) && !w.now.escaped && Follow(MazeHazardPlay.HAZARD, w, actions).Ok?
    ensures MazeHazardPlay.HAZARD.success(Follow(MazeHazardPlay.HAZARD, w, actions).value)
       <==> Escapes(w.config.targetColor, w.now.hazardActive, actions)
    decreases |actions|
  {
    if actions != [] {
      var a, rest, next := actions[0], actions[1..], MazeHazardWorlds.Step(w, actions[0]).value.next;
      var target, active := w.config.targetColor, w.now.hazardActive;
      assert MazeHazardWorlds.Settled(w, MazeHazardWorlds.Step(w, a).value);
      if a == Move(target) {
        EscapesNow(target, active, actions);
        if active {
          HazardEscapesExactly(next, rest);
        } else {
          EscapedStays(next, rest);
        }
      } else {
        EscapesLater(target, active, active && a != Inspect, actions);
        HazardEscapesExactly(next, rest);
      }
    }
  }

  // ---------- what an action costs ----------

  /** k actions can reach the goal, and fewer cannot. */
  ghost predicate IsFewest<W(!new)>(sim: Sim<W>, w: W, k: nat) {
    && (exists actions :: |actions| == k && Reaches(sim, w, actions))
    && (forall actions :: Reaches(sim, w, actions) ==> |actions| >= k)
  }

  predicate Reaches<W(!new)>(sim: Sim<W>, w: W, actions: seq<Action>) {
    Follow(sim, w, actions).Ok? && sim.success(Follow(sim, w, actions).value)
  }

  /** Inside the region an action that brings the goal nearer stays inside. */
  ghost predicate Open<W(!new)>(sim: Sim<W>, region: W -> bool, guide: W -> Action, w: W) {
    Nearer(sim, w, guide(w)) && region(sim.step(w, guide(w)).value.next)
  }

  /** Where a guide always leads nearer, the distance can be walked. */
  lemma {:induction false} Walk<W(!new)>(sim: Sim<W>, region: W -> bool, guide: W -> Action, w: W)
    returns (actions: seq<Action>)
    requires sim.Lawful() && region(w) && forall v :: region(v) && !sim.success(v) ==> Open(sim, region, guide, v)
    ensures |actions| == sim.distance(w) && Reaches(sim, w, actions)
    decreases sim.distance(w)
  {
    assert sim.Measured(w);
    actions := [];
    if !sim.success(w) {
      assert Open(sim, region, guide, w);
      var next := sim.step(w, guide(w)).value.next;
      var rest := Walk(sim, region, guide, next);
      actions := [guide(w)] + rest;
      assert actions[1..] == rest;
    }
  }

  lemma FewestIsDistance<W(!new)>(sim: Sim<W>, region: W -> bool, guide: W -> Action, w: W)
    requires sim.Lawful() && region(w) && forall v :: region(v) && !sim.success(v) ==> Open(sim, region, guide, v)
    requires sim.shortest(w) == sim.distance(w)
    ensures IsFewest(sim, w, sim.distance(w))
  {
    var walked := Walk(sim, region, guide, w);
    forall actions | Reaches(sim, w, actions) ensures |actions| >= sim.distance(w) {
      NoShortcut(sim, w, actions);
    }
  }

  lemma TrapFewest(w: LockTrapWorlds.TrapLock)
    ensures IsFewest(LockTrapPlay.TRAP, w, LockTrapPlay.Distance(w))
  {
    var region := (v: LockTrapWorlds.TrapLock) => true;
    forall v: LockTrapWorlds.TrapLock | !LockTrapPlay.TRAP.success(v)
      ensures Open(LockTrapPlay.TRAP, region, LockTrapWorlds.Expert, v)
    {
      LockTrapPlay.TrapExpertApproaches(v);
    }
    LockTrapPlay.TrapLawful();
    FewestIsDistance(LockTrapPlay.TRAP, region, LockTrapWorlds.Expert, w);
  }

  /** After an accepted action the trapped lock of n digits needs, at the least: from a disarmed lock one step less
      after the right digit, no fewer after a look, and all n after a wrong digit; from an armed one the n - p
      digits that are left after a look, and the look and all n after any digit; and after a reset always the look
      and all n. */
  lemma TrapStepCosts(w: LockTrapWorlds.TrapLock, a: Action)
    requires w.progress < |w.code| && LockTrapWorlds.Step(w, a).Ok?
    ensures IsFewest(LockTrapPlay.TRAP, LockTrapWorlds.Step(w, a).value.next,
                     if a == Reset then |w.code| + 1
                     else if a == Inspect then |w.code| - w.progress
                     else if w.trapArmed then |w.code| + 1
                     else if a == Press(w.code[w.progress]) then |w.code| - w.progress - 1
                     else |w.code|)
  {
    TrapFewest(LockTrapWorlds.Step(w, a).value.next);
  }

  lemma HazardFewest(w: MazeHazardWorlds.HazardMaze)
    requires MazeHazardPlay.Playable(w)
    ensures IsFewest(MazeHazardPlay.HAZARD, w, MazeHazardPlay.Distance(w))
  {
    var region := (v: MazeHazardWorlds.HazardMaze) => MazeHazardPlay.Playable(v);
    forall v: MazeHazardWorlds.HazardMaze | region(v) && !MazeHazardPlay.HAZARD.success(v)
      ensures Open(MazeHazardPlay.HAZARD, region, MazeHazardWorlds.Expert, v)
    {
      MazeHazardPlay.HazardExpertApproaches(v);
    }
    MazeHazardPlay.HazardLawful();
    FewestIsDistance(MazeHazardPlay.HAZARD, region, MazeHazardWorlds.Expert, w);
  }

  /** In the hazardous maze a look clears the hazard, the right door is through where there is none, and nothing else
      changes what is left. */
  lemma HazardStepCosts(w: MazeHazardWorlds.HazardMaze, a: Action)
    requires MazeHazardPlay.Playable(w) && !w.now.escaped && MazeHazardWorlds.Step(w, a).Ok?
    ensures IsFewest(MazeHazardPlay.HAZARD, MazeHazardWorlds.Step(w, a).value.next,
                     if a == Inspect then 1
                     else if w.now.hazardActive then 2
                     else if a == Move(w.config.targetColor) then 0 else 1)
  {
    HazardFewest(MazeHazardWorlds.Step(w, a).value.next);
  }

  lemma GuardedFewest(w: ToolPreconditionWorlds.GuardedChain)
    ensures IsFewest(ToolPreconditionPlay.GUARDED, w, ToolPreconditionPlay.Distance(w))
  {
    var region := (v: ToolPreconditionWorlds.GuardedChain) => true;
    forall v: ToolPreconditionWorlds.GuardedChain | !ToolPreconditionPlay.GUARDED.success(v)
      ensures Open(ToolPreconditionPlay.GUARDED, region, ToolPreconditionWorlds.Expert, v)
    {
      ToolPreconditionPlay.GuardedExpertApproaches(v);
    }
    ToolPreconditionPlay.GuardedLawful();
    FewestIsDistance(ToolPreconditionPlay.GUARDED, region, ToolPreconditionWorlds.Expert, w);
  }

  /** In the guarded chain with k tools left a search makes the setup superfluous. The expected tool saves a step once
      the setup is done. Every other use costs one more step, except at the first slot, where it costs nothing. */
  lemma GuardedStepCosts(w: ToolPreconditionWorlds.GuardedChain, t: Tool)
    requires w.stage < |w.sequence| && ToolPreconditionWorlds.Step(w, Use(t)).Ok?
    ensures var left := |w.sequence| - w.stage;
      var setup := if w.preconditionReady then 0 else 1;
      IsFewest(ToolPreconditionPlay.GUARDED, ToolPreconditionWorlds.Step(w, Use(t)).value.next,
               if t == Search then left
               else if t == ToolPreconditionWorlds.Expected(w) && w.preconditionReady then left - 1
               else left + setup + if w.stage > 0 then 1 else 0)
  {
    GuardedFewest(ToolPreconditionWorlds.Step(w, Use(t)).value.next);
  }
}
