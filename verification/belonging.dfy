/**
 Whose the records of phases set aside are, and the answers on their way (`_park`, `_unpark`,
 `_take_ahead`, slipwright/engine.py). Both are kept by a phase's number, and `running` is
 beside the development here as it goes from step to step.

 They stay with their own phase until phases are moved past it, or a plan is made again
 while they are there: a re-plan forgets the answers but no record, and starting over
 forgets neither.
 */
module Belonging {
  import opened Wrappers
  import opened Plan
  import opened Reordering
  import opened Job
  import opened Safety
  import opened Parking
  import opened Termination
  import opened Runs
  import opened WriteAhead

  /** Every record is of the phase whose number it is under. */
  ghost predicate OwnRecords(j: Job)
  {
    forall n :: n in j.parked ==> 1 <= n <= |j.phases| && j.parked[n].uid == At(j.phases, n).uid
  }

  // -- moving phases that cannot be built here ------------------------------------------------

  /** Nothing is moved past an unbuilt phase with one of these numbers. */
  ghost predicate AllStand(j: Job, here: set<Platform>, numbers: set<nat>)
  {
    forall n :: n in numbers && j.index < n ==> StandsStill(|j.phases|, j.index, Unbuildable(j.phases, j.index, here), n)
  }

  /** The phase under number `n` is the same one after the move exactly when nothing was moved past it. */
  lemma {:induction false} SamePhaseUnder(j: Job, here: set<Platform>, n: nat)
    requires PlanKept(j) && WouldMove(j, here) && 1 <= n <= |j.phases| && j.index <= |j.phases|
    ensures At(UnbuildableLast(j, here).phases, n).uid == At(j.phases, n).uid
      <==> n <= j.index || StandsStill(|j.phases|, j.index, Unbuildable(j.phases, j.index, here), n)
  {
    var later := Unbuildable(j.phases, j.index, here);
    if n <= j.index {
      FrontStays(j, later, n);
    } else {
      PlaceStill(|j.phases|, j.index, later, n);
      StayedPut(j, here, n);
    }
  }

  lemma {:induction false} FrontStays(j: Job, later: set<nat>, n: nat)
    requires 1 <= n <= j.index <= |j.phases|
    ensures At(MovePhases(j, later).phases, n).uid == At(j.phases, n).uid
  {
    MovesPermute(|j.phases|, j.index, later);
    assert MoveOf(j, later)[n - 1] == n;
  }

  /** What is kept by number is not moved along: no answer is under another phase's number
      afterwards exactly when nothing was moved past a phase with one. */
  lemma {:induction false} AnswersStayFiled(j: Job, here: set<Platform>, running: Running)
    requires PlanKept(j) && WouldMove(j, here) && j.index <= |j.phases| && Filed(j.phases, running)
    ensures Filed(UnbuildableLast(j, here).phases, running) <==> AllStand(j, here, running.Keys)
  {
    forall n | n in running
      ensures running[n].uid == At(UnbuildableLast(j, here).phases, n).uid
        <==> n <= j.index || StandsStill(|j.phases|, j.index, Unbuildable(j.phases, j.index, here), n)
    {
      SamePhaseUnder(j, here, n);
    }
  }

  /** And the same of the records. */
  lemma {:induction false} RecordsStayOwn(j: Job, here: set<Platform>)
    requires PlanKept(j) && WouldMove(j, here) && j.index <= |j.phases| && OwnRecords(j)
    ensures OwnRecords(UnbuildableLast(j, here)) <==> AllStand(j, here, j.parked.Keys)
  {
    forall n | n in j.parked
      ensures j.parked[n].uid == At(UnbuildableLast(j, here).phases, n).uid
        <==> n <= j.index || StandsStill(|j.phases|, j.index, Unbuildable(j.phases, j.index, here), n)
    {
      SamePhaseUnder(j, here, n);
    }
  }

  // -- making a plan again ------------------------------------------------------------------

  /** How many of the first phases an event's plan leaves as they were, when it makes one. */
  ghost function RunOf(j: Job, e: Event): nat
  {
    match e
    case PlanWritten(_) => KeptOf(j)
    case PlanEdited(edited) => KeptRun(j, KeptOf(j), edited)
    case _ => 0
  }

  ghost predicate PlansAnew(cfg: Config, j: Job, e: Event)
  {
    Next(cfg, j, e).Some? && MakesPlan(j, e, Next(cfg, j, e).value)
  }

  /** The phase under number `n` is the same one in a new plan exactly when it is one of those
      left as they were. */
  lemma {:induction false} SameInNewPlan(j: Job, kept: nat, drafts: seq<Draft>, n: nat)
    requires PlanKept(j) && 1 <= n <= |j.phases|
    ensures n <= |drafts| && At(Compose(j, kept, drafts), n).uid == At(j.phases, n).uid <==> n <= KeptRun(j, kept, drafts)
  {
    if n <= |drafts| {
      ComposeUids(j, kept, drafts, n);
      assert At(j.phases, n).uid < j.nextUid;
    }
  }

  lemma {:induction false} MadePlan(cfg: Config, j: Job, e: Event, k: Job) returns (kept: nat, drafts: seq<Draft>)
    requires Inv(cfg, j) && Next(cfg, j, e) == Some(k) && MakesPlan(j, e, k)
    ensures k.phases == Compose(j, kept, drafts) && k.parked == j.parked && KeptRun(j, kept, drafts) == RunOf(j, e)
  {
    kept := KeptOf(j);
    if e.PlanWritten? {
      drafts := Whole(j.phases, kept, e.drafts);
      KeptWhole(j, e.drafts);
      TakenPlan(cfg, j, e.drafts);
    } else {
      drafts := e.edited;
    }
  }

  lemma {:induction false} TakenPlan(cfg: Config, j: Job, drafts: seq<Draft>)
    requires KeptOf(j) <= |j.phases| && PlanStep(cfg, j, drafts).plan != j.plan
    ensures var k := PlanStep(cfg, j, drafts); k.phases == Compose(j, KeptOf(j), Whole(j.phases, KeptOf(j), drafts)) && k.parked == j.parked
  {
  }

  lemma {:induction false} SameUnderEach(cfg: Config, j: Job, e: Event, k: Job, numbers: set<nat>)
    requires Inv(cfg, j) && Next(cfg, j, e) == Some(k) && MakesPlan(j, e, k)
    requires forall n :: n in numbers ==> 1 <= n <= |j.phases|
    ensures k.parked == j.parked
    ensures forall n :: n in numbers ==> (n <= |k.phases| && At(k.phases, n).uid == At(j.phases, n).uid <==> n <= RunOf(j, e))
  {
    var kept, drafts := MadePlan(cfg, j, e, k);
    forall n | n in numbers
      ensures n <= |drafts| && At(Compose(j, kept, drafts), n).uid == At(j.phases, n).uid <==> n <= RunOf(j, e)
    {
      SameInNewPlan(j, kept, drafts, n);
    }
  }

  /** A plan made again leaves the records under their numbers: each is still its own phase's
      exactly when that is one of the phases left as they were. */
  lemma {:induction false} NewPlanRecords(cfg: Config, j: Job, e: Event)
    requires Inv(cfg, j) && PlansAnew(cfg, j, e) && OwnRecords(j)
    ensures OwnRecords(Next(cfg, j, e).value) <==> forall n :: n in j.parked ==> n <= RunOf(j, e)
  {
    SameUnderEach(cfg, j, e, Next(cfg, j, e).value, j.parked.Keys);
  }

  /** And so are the answers that are on their way then. */
  lemma {:induction false} NewPlanAnswers(cfg: Config, j: Job, e: Event, running: Running)
    requires Inv(cfg, j) && PlansAnew(cfg, j, e) && Filed(j.phases, running)
    ensures Filed(Next(cfg, j, e).value.phases, running) <==> forall n :: n in running ==> n <= RunOf(j, e)
  {
    SameUnderEach(cfg, j, e, Next(cfg, j, e).value, running.Keys);
  }

  // -- setting aside --------------------------------------------------------------------

  /** A record that finds a phase after a move is that phase's. */
  lemma {:induction false} LandsOnItsOwn(filing: Filing, j: Job, m: seq<nat>, lo: nat, r: nat)
    requires Ranged(j.phases) && Distinct(j.phases, j.nextObj) && Permutes(m, |j.phases|) && 1 <= lo && OwnRecords(j)
    requires var qs := Reordered(j.phases, m, j.nextObj);
      r in Landed(filing, qs, Moving(filing, j.phases, j.parked, lo), |qs|)
    ensures var qs := Reordered(j.phases, m, j.nextObj);
      1 <= r <= |qs| && Landed(filing, qs, Moving(filing, j.phases, j.parked, lo), |qs|)[r].uid == At(qs, r).uid
  {
    var ps, qs, moving := j.phases, Reordered(j.phases, m, j.nextObj), Moving(filing, j.phases, j.parked, lo);
    LandedIs(filing, qs, moving, |qs|);
    var x := KeyOf(filing, At(qs, r));
    MovingIs(filing, ps, j.nextObj, j.parked, lo, r);
    assert Keyed(filing, ps, lo, x);
    var n: nat :| 1 <= n && lo <= n <= |ps| && KeyOf(filing, At(ps, n)) == x;
    MovingIs(filing, ps, j.nextObj, j.parked, lo, n);
    var was := Was(m, |ps|, r);
    ReorderKeepsPhase(ps, m, j.nextObj, was);
    assert At(ps, n).obj < j.nextObj;
    if filing.ByRecord? {
      SamePhase(ps, j.nextObj, n, was);
    }
  }

  lemma {:induction false} ParkOwn(filing: Filing, j: Job, why: string)
    requires PlanKept(j) && j.index < |j.phases| && OwnRecords(j)
    ensures OwnRecords(ParkStep(filing, j, why))
  {
    var k := ParkStep(filing, j, why);
    ParkIs(filing, j, why);
    forall r | r in k.parked ensures 1 <= r <= |k.phases| && k.parked[r].uid == At(k.phases, r).uid {
      if r == AfterPark(j, j.index + 1) {
        ParkNumbers(j, j.index + 1);
      } else {
        RefiledOwn(filing, j, r);
      }
    }
  }

  lemma {:induction false} RefiledOwn(filing: Filing, j: Job, r: nat)
    requires PlanKept(j) && j.index < |j.phases| && OwnRecords(j) && r in AllRefiled(filing, j)
    ensures 1 <= r <= |j.phases| && AllRefiled(filing, j)[r].uid == At(PhasesAfter(j), r).uid
  {
    MovesPermute(|j.phases|, j.index, Needing(j.phases, j.index + 1));
    MovedOwn(filing, j, MoveOf(j, Needing(j.phases, j.index + 1)), r);
  }

  /** What is filed again past the settled phases, or was left under theirs. */
  lemma {:induction false} MovedOwn(filing: Filing, j: Job, m: seq<nat>, r: nat)
    requires Ranged(j.phases) && Distinct(j.phases, j.nextObj) && OwnRecords(j) && j.index <= |j.phases|
    requires Permutes(m, |j.phases|) && forall i :: 0 <= i < j.index ==> m[i] == i + 1
    requires r in Refiled(filing, j.phases, Reordered(j.phases, m, j.nextObj), j.parked, j.index + 1)
    ensures var qs := Reordered(j.phases, m, j.nextObj);
      1 <= r <= |qs| && Refiled(filing, j.phases, qs, j.parked, j.index + 1)[r].uid == At(qs, r).uid
  {
    var qs := Reordered(j.phases, m, j.nextObj);
    var landed := Landed(filing, qs, Moving(filing, j.phases, j.parked, j.index + 1), |qs|);
    if r in landed {
      LandsOnItsOwn(filing, j, m, j.index + 1, r);
    } else {
      assert r in j.parked && r <= j.index && m[r - 1] == r;
    }
  }

  // -- one step -------------------------------------------------------------------------

  /** The step leaves a record under a number that is another phase's now. */
  ghost predicate MisplacesRecord(cfg: Config, j: Job, e: Event)
  {
    || (e.PhaseTurn? && SetsLast(j, e.here) && !AllStand(j, e.here, j.parked.Keys))
    || (PlansAnew(cfg, j, e) && exists n :: n in j.parked && RunOf(j, e) < n)
  }

  lemma {:induction false} TurnOwn(filing: Filing, l: Job, e: Event)
    requires e.PhaseTurn? && PlanKept(l) && l.state == Developing && l.index < |l.phases| && OwnRecords(l)
    ensures OwnRecords(TurnStep(filing, l, e.here, e.screens, e.answer))
  {
    if Parks(l, e) {
      assert TurnStep(filing, l, e.here, e.screens, e.answer) == ParkStep(filing, l, e.answer.why);
      ParkOwn(filing, l, e.answer.why);
    } else {
      NotParkedLeaves(filing, l, e);
    }
  }

  lemma {:induction false} DevelopOwn(cfg: Config, j: Job, e: Event)
    requires Inv(cfg, j) && Trusted(j, e) && e.PhaseTurn? && j.state == Developing && OwnRecords(j) && !MisplacesRecord(cfg, j, e)
    ensures OwnRecords(DevelopStep(cfg.filing, j, e.here, e.screens, e.fits, e.answer))
  {
    if j.index < |j.phases| {
      DevelopIs(cfg.filing, j, e);
      if j.index + 1 !in j.parked {
        ReadyKeeps(cfg, j, e.here);
        if SetsLast(j, e.here) {
          RecordsStayOwn(j, e.here);
        }
        TurnOwn(cfg.filing, Ready(j, e.here), e);
      }
    }
  }

  /** Every other step leaves every record its own phase's. */
  lemma {:induction false} StepOwn(cfg: Config, j: Job, e: Event)
    requires Inv(cfg, j) && Trusted(j, e) && Next(cfg, j, e).Some? && OwnRecords(j) && !MisplacesRecord(cfg, j, e)
    ensures OwnRecords(Next(cfg, j, e).value)
  {
    if e.PhaseTurn? {
      DevelopOwn(cfg, j, e);
    } else if PlansAnew(cfg, j, e) {
      NewPlanRecords(cfg, j, e);
    } else if e.PlanWritten? || e.PlanEdited? {
      NoPlanMade(cfg, j, e);
    } else {
      PhasesLeft(cfg, j, e);
    }
  }

  lemma {:induction false} NoPlanMade(cfg: Config, j: Job, e: Event)
    requires (e.PlanWritten? || e.PlanEdited?) && Next(cfg, j, e).Some? && !PlansAnew(cfg, j, e)
    ensures Next(cfg, j, e).value.phases == j.phases && Next(cfg, j, e).value.parked == j.parked
  {
  }

  /** Over every run, each record is its own phase's for as long as no step misplaced one. */
  lemma {:induction false} RecordsOwnOverRuns(cfg: Config, js: seq<Job>, es: seq<Event>, i: nat)
    requires Run(cfg, js, es) && i < |js| && forall s: nat :: s < i ==> !MisplacesRecord(cfg, js[s], es[s])
    ensures OwnRecords(js[i])
  {
    if i != 0 {
      RecordsOwnOverRuns(cfg, js, es, i - 1);
      OwnAfter(cfg, js, es, i - 1);
    }
  }

  lemma {:induction false} OwnAfter(cfg: Config, js: seq<Job>, es: seq<Event>, i: nat)
    requires Run(cfg, js, es) && i < |es| && OwnRecords(js[i]) && !MisplacesRecord(cfg, js[i], es[i])
    ensures OwnRecords(js[i + 1])
  {
    RunKeeps(cfg, js, es, i);
    assert StepAt(cfg, js, es, i);
    StepOwn(cfg, js[i], es[i]);
  }

  // -- the answers beside the development -----------------------------------------------------

  /** The step forgets what is on its way (`_drop_ahead`): a phase is set aside, or the plan
      is sent back. */
  ghost predicate Drops(cfg: Config, j: Job, e: Event)
  {
    match e
    case PhaseTurn(_, _, _, _) => SetsAside(j, e)
    case GateRun(_) => Next(cfg, j, e).Some? && Next(cfg, j, e).value.state == Architecture
    case Redirected | PhaseReplanned => true
    case _ => false
  }

  /** An answer under number `n` was on its way before, or is started for the phase there. */
  ghost predicate FromBefore(running: Running, after: Running, n: nat)
    requires n in after
  {
    n in running && after[n].uid == running[n].uid
  }

  ghost predicate Begun(ps: seq<Phase>, index: nat, after: Running, n: nat)
    requires n in after
  {
    Startable(ps, index, UpTo(|ps|), n) && after[n].uid == At(ps, n).uid
  }

  /** What is on its way after a step: answers come in and are taken at any time, and are
      started only in a phase's turn. */
  ghost predicate AnswersAfter(cfg: Config, j: Job, e: Event, running: Running, after: Running)
  {
    if Drops(cfg, j, e) then after == map[]
    else if e.PhaseTurn? && j.index < |j.phases| && j.index + 1 !in j.parked then
      forall n :: n in after ==> FromBefore(running, after, n) || Begun(Ready(j, e.here).phases, j.index, after, n)
    else forall n :: n in after ==> FromBefore(running, after, n)
  }

  /** The step leaves an answer under a number that is another phase's now. */
  ghost predicate MisfilesAnswer(cfg: Config, j: Job, e: Event, running: Running)
  {
    || (e.PhaseTurn? && SetsLast(j, e.here) && !AllStand(j, e.here, running.Keys))
    || (PlansAnew(cfg, j, e) && exists n :: n in running && RunOf(j, e) < n)
  }

  lemma {:induction false} StartedFiled(ps: seq<Phase>, index: nat, running: Running, after: Running)
    requires Filed(ps, running) && forall n :: n in after ==> FromBefore(running, after, n) || Begun(ps, index, after, n)
    ensures Filed(ps, after)
  {
  }

  lemma {:induction false} TurnFiled(cfg: Config, j: Job, e: Event, running: Running, after: Running)
    requires Inv(cfg, j) && Trusted(j, e) && e.PhaseTurn? && j.state == Developing && Filed(j.phases, running)
    requires AnswersAfter(cfg, j, e, running, after) && !MisfilesAnswer(cfg, j, e, running)
    ensures Filed(DevelopStep(cfg.filing, j, e.here, e.screens, e.fits, e.answer).phases, after)
  {
    if j.index < |j.phases| && !SetsAside(j, e) {
      DevelopIs(cfg.filing, j, e);
      if j.index + 1 !in j.parked {
        ReadyFiled(j, e.here, running, after);
        TriedSame(cfg, j, e);
      }
    }
  }

  lemma {:induction false} TriedSame(cfg: Config, j: Job, e: Event)
    requires e.PhaseTurn? && j.state == Developing && j.index < |j.phases| && j.index + 1 !in j.parked && !SetsAside(j, e)
    ensures TurnStep(cfg.filing, Ready(j, e.here), e.here, e.screens, e.answer).phases == Ready(j, e.here).phases
  {
    NotParkedLeaves(cfg.filing, Ready(j, e.here), e);
  }

  /** What is started in a phase's turn is started once the phases that cannot be built here are last. */
  lemma {:induction false} ReadyFiled(j: Job, here: set<Platform>, running: Running, after: Running)
    requires PlanKept(j) && j.state == Developing && j.index < |j.phases| && j.index + 1 !in j.parked && Filed(j.phases, running)
    requires SetsLast(j, here) ==> AllStand(j, here, running.Keys)
    requires forall n :: n in after ==> FromBefore(running, after, n) || Begun(Ready(j, here).phases, j.index, after, n)
    ensures Filed(Ready(j, here).phases, after)
  {
    StillFiled(j, here, running);
    StartedFiled(Ready(j, here).phases, j.index, running, after);
  }

  lemma {:induction false} StillFiled(j: Job, here: set<Platform>, running: Running)
    requires PlanKept(j) && j.state == Developing && j.index < |j.phases| && j.index + 1 !in j.parked && Filed(j.phases, running)
    requires SetsLast(j, here) ==> AllStand(j, here, running.Keys)
    ensures Filed(Ready(j, here).phases, running)
  {
    ReadyMoves(j, here);
    if SetsLast(j, here) {
      AnswersStayFiled(j, here, running);
    }
  }

  lemma {:induction false} ReadyMoves(j: Job, here: set<Platform>)
    requires PlanKept(j) && j.state == Developing && j.index < |j.phases| && j.index + 1 !in j.parked
    ensures SetsLast(j, here) ==> WouldMove(j, here) && Ready(j, here) == UnbuildableLast(j, here)
    ensures !SetsLast(j, here) ==> Ready(j, here) == j
  {
  }

  /** Every other step leaves every answer under its own phase's number. */
  lemma {:induction false} StepFiled(cfg: Config, j: Job, e: Event, running: Running, after: Running)
    requires Inv(cfg, j) && Trusted(j, e) && Next(cfg, j, e).Some? && Filed(j.phases, running)
    requires AnswersAfter(cfg, j, e, running, after) && !MisfilesAnswer(cfg, j, e, running)
    ensures Filed(Next(cfg, j, e).value.phases, after)
  {
    if e.PhaseTurn? {
      TurnFiled(cfg, j, e, running, after);
    } else {
      OtherFiled(cfg, j, e, running, after);
    }
  }

  lemma {:induction false} OtherFiled(cfg: Config, j: Job, e: Event, running: Running, after: Running)
    requires Inv(cfg, j) && !e.PhaseTurn? && Next(cfg, j, e).Some? && Filed(j.phases, running) && AnswersAfter(cfg, j, e, running, after)
    requires PlansAnew(cfg, j, e) ==> forall n :: n in running ==> n <= RunOf(j, e)
    ensures Filed(Next(cfg, j, e).value.phases, after)
  {
    if PlansAnew(cfg, j, e) {
      NewPlanAnswers(cfg, j, e, running);
    } else if e.PlanWritten? || e.PlanEdited? {
      NoPlanMade(cfg, j, e);
    } else {
      PhasesLeft(cfg, j, e);
    }
    OnlyBefore(Next(cfg, j, e).value.phases, running, after);
  }

  lemma {:induction false} OnlyBefore(ps: seq<Phase>, running: Running, after: Running)
    requires Filed(ps, running) && forall n :: n in after ==> FromBefore(running, after, n)
    ensures Filed(ps, after)
  {
  }

  /** A run with the answers that are on their way beside it. */
  ghost predicate RunWithAnswers(cfg: Config, js: seq<Job>, es: seq<Event>, rs: seq<Running>)
  {
    && Run(cfg, js, es) && |rs| == |js| && rs[0] == map[]
    && forall i: nat :: i < |es| ==> AnswersStep(cfg, js, es, rs, i)
  }

  ghost predicate AnswersStep(cfg: Config, js: seq<Job>, es: seq<Event>, rs: seq<Running>, i: nat)
    requires i < |es| && i < |js| && i + 1 < |rs|
  {
    AnswersAfter(cfg, js[i], es[i], rs[i], rs[i + 1])
  }

  /** Over every run, each answer is under its own phase's number for as long as no step
      misfiled one, so it is taken for the phase it was started for. */
  lemma {:induction false} FiledOverRuns(cfg: Config, js: seq<Job>, es: seq<Event>, rs: seq<Running>, i: nat)
    requires RunWithAnswers(cfg, js, es, rs) && i < |js|
    requires forall s: nat :: s < i ==> !MisfilesAnswer(cfg, js[s], es[s], rs[s])
    ensures Filed(js[i].phases, rs[i])
  {
    if i != 0 {
      FiledOverRuns(cfg, js, es, rs, i - 1);
      RunKeeps(cfg, js, es, i - 1);
      assert StepAt(cfg, js, es, i - 1) && AnswersStep(cfg, js, es, rs, i - 1);
      StepFiled(cfg, js[i - 1], es[i - 1], rs[i - 1], rs[i]);
    }
  }

  // -- which plans find answers on their way ------------------------------------------------

  /** The development is being built, seen through pauses, questions and failures, or is over. */
  predicate BeingBuilt(j: Job)
  {
    PlannedState(Behind(j)) || j.state == Cancelled
  }

  lemma {:induction false} GateLeavesBuilt(cfg: Config, j: Job, gate: Gate)
    requires Placed(j) && j.state == BuildGate
    ensures BeingBuilt(GateStep(cfg, j, gate)) || GateStep(cfg, j, gate).state == Architecture
  {
  }

  lemma {:induction false} TurnLeavesBuilt(filing: Filing, l: Job, e: Event)
    requires e.PhaseTurn? && l.state == Developing && l.index < |l.phases|
    ensures BeingBuilt(TurnStep(filing, l, e.here, e.screens, e.answer))
  {
    if Parks(l, e) {
      ParkedPlace(filing, l, e.answer.why);
    } else if BuildableHere(InTurn(l), e.here) && !e.screens {
      AnswerLeavesBuilt(filing, l, e.answer);
    }
  }

  lemma {:induction false} AnswerLeavesBuilt(filing: Filing, l: Job, answer: Answer)
    requires l.state == Developing && l.index < |l.phases| && !(answer.Spent? && SomeFree(l))
    ensures BeingBuilt(AnswerStep(filing, l, answer))
  {
  }

  lemma {:induction false} DevelopLeavesBuilt(cfg: Config, j: Job, e: Event)
    requires e.PhaseTurn? && j.state == Developing
    ensures BeingBuilt(DevelopStep(cfg.filing, j, e.here, e.screens, e.fits, e.answer))
  {
    if j.index < |j.phases| {
      DevelopIs(cfg.filing, j, e);
      if j.index + 1 !in j.parked {
        ReadyIs(j, e.here);
        TurnLeavesBuilt(cfg.filing, Ready(j, e.here), e);
      }
    }
  }

  lemma {:induction false} HandlerLeavesBuilt(cfg: Config, j: Job, e: Event)
    requires Placed(j) && ByHandler(e) && Next(cfg, j, e).Some? && BeingBuilt(j)
    ensures BeingBuilt(Next(cfg, j, e).value) || Drops(cfg, j, e)
  {
    match e
    case PhaseTurn(_, _, _, _) => DevelopLeavesBuilt(cfg, j, e);
    case GateRun(builds) => GateLeavesBuilt(cfg, j, GateOf(cfg, j, builds));
    case TestsTurn(rounds) => TestsLeaveBuilt(cfg, j, rounds);
    case PhasesRead(found) => ReadersLeaveBuilt(cfg, j, found, 0, false);
    case PhaseReviewed(blocking, enforced) => ReadersLeaveBuilt(cfg, j, map[], blocking, enforced);
    case PlanWritten(_) =>
  }

  lemma {:induction false} TestsLeaveBuilt(cfg: Config, j: Job, rounds: Rounds)
    requires j.state == Qa
    ensures BeingBuilt(QaStep(cfg, j, rounds))
  {
    QaWriteKeeps(cfg, j, rounds, 0, true);
  }

  lemma {:induction false} ReadersLeaveBuilt(cfg: Config, j: Job, found: map<nat, bool>, blocking: nat, enforced: bool)
    ensures j.state == Reconcile ==> BeingBuilt(ReadStep(j, found))
    ensures j.state == Review ==> BeingBuilt(ReviewStep(cfg, j, blocking, enforced))
  {
  }

  lemma {:induction false} OnwardLeavesBuilt(cfg: Config, j: Job, e: Event)
    requires Placed(j) && Onward(e) && Next(cfg, j, e).Some? && BeingBuilt(j)
    ensures BeingBuilt(Next(cfg, j, e).value)
  {
    if e.ShippingTurn? {
      ShippingLeavesBuilt(cfg, j, e.shipping);
    }
  }

  lemma {:induction false} ShippingLeavesBuilt(cfg: Config, j: Job, shipping: Shipping)
    requires j.state == DevOps
    ensures BeingBuilt(ShipStep(cfg, j, shipping))
  {
    ShipFromKeeps(cfg, j.(devopsStage := 2), shipping.ci, 0);
  }

  lemma {:induction false} AsideLeavesBuilt(cfg: Config, j: Job, e: Event)
    requires Placed(j) && Aside(e) && !e.StartedOver? && Next(cfg, j, e).Some? && BeingBuilt(j)
    ensures BeingBuilt(Next(cfg, j, e).value) || Drops(cfg, j, e)
  {
    if e.CarriedOn? {
      CarriedLeavesBuilt(j, e.brought);
    } else if e.Retried? {
      RetriedLeavesBuilt(j);
    }
  }

  lemma {:induction false} CarriedLeavesBuilt(j: Job, brought: bool)
    requires Placed(j) && BeingBuilt(j) && CarryOnStep(j, brought).Some?
    ensures BeingBuilt(CarryOnStep(j, brought).value)
  {
  }

  lemma {:induction false} RetriedLeavesBuilt(j: Job)
    requires Placed(j) && BeingBuilt(j) && RetryStep(j).Some?
    ensures BeingBuilt(RetryStep(j).value)
  {
  }

  lemma {:induction false} DecisionLeavesBuilt(j: Job, drawing: bool, empty: bool)
    requires Placed(j) && BeingBuilt(j) && ApproveStep(j, drawing, empty).Some?
    ensures BeingBuilt(ApproveStep(j, drawing, empty).value)
  {
  }

  lemma {:induction false} RejectionLeavesBuilt(j: Job)
    requires Placed(j) && BeingBuilt(j) && RejectStep(j).Some?
    ensures BeingBuilt(RejectStep(j).value)
  {
  }

  lemma {:induction false} PersonLeavesBuilt(cfg: Config, j: Job, e: Event)
    requires Placed(j) && (e.Approved? || e.PlanEdited? || e.Rejected? || e.Steered?) && Next(cfg, j, e).Some? && BeingBuilt(j)
    ensures BeingBuilt(Next(cfg, j, e).value)
  {
    match e
    case Approved(drawing, empty) => DecisionLeavesBuilt(j, drawing, empty);
    case Rejected => RejectionLeavesBuilt(j);
    case PlanEdited(_) =>
    case Steered(_) =>
  }

  lemma {:induction false} CountingLeavesBuilt(cfg: Config, j: Job, e: Event)
    requires Placed(j) && CountsOne(e) && Next(cfg, j, e).Some? && BeingBuilt(j)
    ensures BeingBuilt(Next(cfg, j, e).value)
  {
    CountedPlaced(j, Counted(j));
    if e.AutoApproved? && ApproveStep(Counted(j), e.drawing, e.empty).Some? {
      DecisionLeavesBuilt(Counted(j), e.drawing, e.empty);
    }
  }

  lemma {:induction false} StaysBuilt(cfg: Config, j: Job, e: Event)
    requires Placed(j) && !e.StartedOver? && Next(cfg, j, e).Some? && BeingBuilt(j)
    ensures BeingBuilt(Next(cfg, j, e).value) || Drops(cfg, j, e)
  {
    if ByHandler(e) {
      HandlerLeavesBuilt(cfg, j, e);
    } else if Onward(e) {
      OnwardLeavesBuilt(cfg, j, e);
    } else if Aside(e) {
      AsideLeavesBuilt(cfg, j, e);
    } else if CountsOne(e) {
      CountingLeavesBuilt(cfg, j, e);
    } else {
      PersonLeavesBuilt(cfg, j, e);
    }
  }

  /** Unless it was started over, answers are only on their way while it is being built. */
  lemma {:induction false} AnswersWhileBuilt(cfg: Config, js: seq<Job>, es: seq<Event>, rs: seq<Running>, i: nat)
    requires RunWithAnswers(cfg, js, es, rs) && i < |js| && forall s: nat :: s < i ==> !es[s].StartedOver?
    ensures rs[i] != map[] ==> BeingBuilt(js[i])
  {
    if i != 0 {
      AnswersWhileBuilt(cfg, js, es, rs, i - 1);
      AnswersStepBuilt(cfg, js, es, rs, i - 1);
    }
  }

  lemma {:induction false} AnswersStepBuilt(cfg: Config, js: seq<Job>, es: seq<Event>, rs: seq<Running>, i: nat)
    requires RunWithAnswers(cfg, js, es, rs) && i < |es| && !es[i].StartedOver? && (rs[i] != map[] ==> BeingBuilt(js[i]))
    ensures rs[i + 1] != map[] ==> BeingBuilt(js[i + 1])
  {
    if rs[i + 1] != map[] {
      RunKeeps(cfg, js, es, i);
      assert StepAt(cfg, js, es, i) && AnswersStep(cfg, js, es, rs, i);
      StaysOnItsWay(cfg, js[i], es[i], js[i + 1], rs[i], rs[i + 1]);
    }
  }

  lemma {:induction false} StaysOnItsWay(cfg: Config, j: Job, e: Event, k: Job, running: Running, after: Running)
    requires Placed(j) && !e.StartedOver? && Next(cfg, j, e) == Some(k) && AnswersAfter(cfg, j, e, running, after) && after != map[]
    requires running != map[] ==> BeingBuilt(j)
    ensures BeingBuilt(k)
  {
    NoneFromNothing(cfg, j, e, running, after);
    StaysBuilt(cfg, j, e);
  }

  /** Answers are on their way where some were before, or where a phase is developed. */
  lemma {:induction false} NoneFromNothing(cfg: Config, j: Job, e: Event, running: Running, after: Running)
    requires AnswersAfter(cfg, j, e, running, after) && Next(cfg, j, e).Some? && after != map[]
    ensures !Drops(cfg, j, e) && (running != map[] || j.state == Developing)
  {
    var n :| n in after;
    assert running == map[] ==> !FromBefore(running, after, n);
  }

  /** So the only plan that finds answers on their way is one made after starting over. */
  lemma {:induction false} PlanFindsNoAnswers(cfg: Config, js: seq<Job>, es: seq<Event>, rs: seq<Running>, i: nat)
    requires RunWithAnswers(cfg, js, es, rs) && i < |es| && forall s: nat :: s < i ==> !es[s].StartedOver?
    requires PlansAnew(cfg, js[i], es[i])
    ensures rs[i] == map[]
  {
    AnswersWhileBuilt(cfg, js, es, rs, i);
    PlanIsNotBuilt(cfg, js[i], es[i]);
  }

  lemma {:induction false} PlanIsNotBuilt(cfg: Config, j: Job, e: Event)
    requires PlansAnew(cfg, j, e)
    ensures !BeingBuilt(j)
  {
  }
}
