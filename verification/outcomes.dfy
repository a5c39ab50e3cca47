/**
 What each handler comes to, said of what came in alone (`_build_gate`, `_review`, `_develop`,
 `_qa_write`, `_devops`, `_reconcile`, slipwright/engine.py).

 The steps go through builds, rounds and checks one by one. Here is which of them is the last,
 what it was, and where the development is led by it.
 */
module Outcomes {
  import opened Wrappers
  import opened Plan
  import opened Reordering
  import opened Job
  import opened Safety
  import opened Parking
  import opened Termination

  // -- a build gate -----------------------------------------------------------------------

  /** Each of the first `n` builds was red, and QA corrected its tests for it. */
  ghost predicate CorrectedTo(builds: Builds, n: nat)
  {
    forall i: nat :: i < n ==> builds.build(i).Failing? && builds.triage(i).Corrected?
  }

  /** Build `n` is made: QA corrected its tests for every one before it, as often as it may. */
  ghost predicate BuildMade(cfg: Config, fixes: nat, builds: Builds, n: nat)
  {
    CorrectedTo(builds, n) && (n == 0 || fixes + n <= cfg.maxGateFixes)
  }

  ghost predicate GreenAt(cfg: Config, fixes: nat, builds: Builds, n: nat)
  {
    BuildMade(cfg, fixes, builds, n) && builds.build(n).Passing?
  }

  ghost predicate LostAt(cfg: Config, fixes: nat, builds: Builds, n: nat)
  {
    BuildMade(cfg, fixes, builds, n) && builds.build(n).NoBuilder?
  }

  /** Build `n` is red, and QA may correct nothing more or says the code is wrong. */
  ghost predicate RedAt(cfg: Config, fixes: nat, builds: Builds, n: nat)
  {
    BuildMade(cfg, fixes, builds, n) && builds.build(n).Failing? && (cfg.maxGateFixes <= fixes + n || builds.triage(n).Blamed?)
  }

  ghost predicate GateEndsAt(cfg: Config, fixes: nat, builds: Builds, n: nat)
  {
    GreenAt(cfg, fixes, builds, n) || LostAt(cfg, fixes, builds, n) || RedAt(cfg, fixes, builds, n)
  }

  /** What the checkout holds once QA corrected its tests `n` times. */
  ghost function LeftAfter(wip: string, builds: Builds, n: nat): string
    requires CorrectedTo(builds, n)
  {
    if n == 0 then wip else builds.triage(n - 1).wip
  }

  /** What is said of the failure by then: a correction takes back what was said before. */
  ghost function SaidAfter(diagnosis: string, n: nat): string
  {
    if n == 0 then diagnosis else ""
  }

  /** What is said of the failure when build `n` stays red. */
  ghost function BlamedAt(cfg: Config, diagnosis: string, fixes: nat, builds: Builds, n: nat): string
    requires RedAt(cfg, fixes, builds, n)
  {
    if cfg.maxGateFixes <= fixes + n then SaidAfter(diagnosis, n) else builds.triage(n).diagnosis
  }

  lemma {:induction false} OneGateEnd(cfg: Config, fixes: nat, builds: Builds, a: nat, b: nat)
    requires GateEndsAt(cfg, fixes, builds, a) && GateEndsAt(cfg, fixes, builds, b)
    ensures a == b
  {
  }

  /** Gate `g` is what the builds come to at build `n`. */
  ghost predicate GateIs(cfg: Config, wip: string, diagnosis: string, fixes: nat, builds: Builds, n: nat, g: Gate)
  {
    match g
    case Green(left, review) => GreenAt(cfg, fixes, builds, n) && left == LeftAfter(wip, builds, n) && review == builds.review
    case Lost(left, said, after) =>
      LostAt(cfg, fixes, builds, n) && left == LeftAfter(wip, builds, n) && said == SaidAfter(diagnosis, n) && after == fixes + n
    case Red(left, output, said, choice, after) =>
      && RedAt(cfg, fixes, builds, n) && left == LeftAfter(wip, builds, n) && output == builds.build(n).output
      && said == BlamedAt(cfg, diagnosis, fixes, builds, n) && choice == builds.choice && after == fixes + n
  }

  lemma {:induction false} GateEnds(cfg: Config, wip: string, diagnosis: string, fixes: nat, builds: Builds, i: nat) returns (n: nat)
    requires BuildMade(cfg, fixes, builds, i)
    ensures GateIs(cfg, wip, diagnosis, fixes, builds, n,
      GateFrom(cfg, LeftAfter(wip, builds, i), SaidAfter(diagnosis, i), fixes + i, builds, i))
    decreases cfg.maxGateFixes - (fixes + i)
  {
    n := i;
    if builds.build(i).Failing? && fixes + i < cfg.maxGateFixes && builds.triage(i).Corrected? {
      n := GateEnds(cfg, wip, diagnosis, fixes, builds, i + 1);
    }
  }

  /** A gate is green exactly when some build passes and every one before it was red and had
      its tests corrected, as often as that is allowed; it is lost or red exactly likewise; and
      it holds what the last correction left. */
  lemma {:induction false} GateComesTo(cfg: Config, wip: string, diagnosis: string, fixes: nat, builds: Builds)
    ensures var g := GateFrom(cfg, wip, diagnosis, fixes, builds, 0);
      && (g.Green? <==> exists n: nat :: GreenAt(cfg, fixes, builds, n))
      && (g.Lost? <==> exists n: nat :: LostAt(cfg, fixes, builds, n))
      && (g.Red? <==> exists n: nat :: RedAt(cfg, fixes, builds, n))
    ensures forall n: nat :: GateEndsAt(cfg, fixes, builds, n) ==>
      GateIs(cfg, wip, diagnosis, fixes, builds, n, GateFrom(cfg, wip, diagnosis, fixes, builds, 0))
  {
    var n := GateEnds(cfg, wip, diagnosis, fixes, builds, 0);
    forall m: nat | GateEndsAt(cfg, fixes, builds, m) ensures m == n {
      OneGateEnd(cfg, fixes, builds, m, n);
    }
    assert forall m: nat :: GreenAt(cfg, fixes, builds, m) ==> GateEndsAt(cfg, fixes, builds, m);
    assert forall m: nat :: LostAt(cfg, fixes, builds, m) ==> GateEndsAt(cfg, fixes, builds, m);
    assert forall m: nat :: RedAt(cfg, fixes, builds, m) ==> GateEndsAt(cfg, fixes, builds, m);
  }

  /** Some build of this gate passes, and the tests were corrected for all before it. */
  ghost predicate Passes(cfg: Config, j: Job, builds: Builds)
  {
    exists n: nat :: GreenAt(cfg, j.gateFixes, builds, n)
  }

  lemma {:induction false} GateRuns(cfg: Config, j: Job, builds: Builds)
    requires j.state == BuildGate && j.index < |j.phases|
    ensures Next(cfg, j, GateRun(builds)) == Some(GateStep(cfg, j, GateOf(cfg, j, builds)))
    ensures GateOf(cfg, j, builds).Green? <==> Passes(cfg, j, builds)
  {
    GateComesTo(cfg, j.wip, j.work.diagnosis, j.gateFixes, builds);
  }

  /** A gate settles the phase in turn, and that one alone, exactly when one of its builds
      passes so and nothing about the phase is unread; all the plan wants of that phase is
      settled by then. Where no phase is reviewed, QA is next exactly when it was the last. */
  lemma {:induction false} GateSettles(cfg: Config, j: Job, builds: Builds)
    requires PlanKept(j) && ProgressKept(j) && j.state == BuildGate && j.index < |j.phases|
    ensures Next(cfg, j, GateRun(builds)).Some?
    ensures var k := Next(cfg, j, GateRun(builds)).value; var u := InTurn(j).uid;
      if Passes(cfg, j, builds) && j.index + 1 !in j.unread
      then
        && k.index == j.index + 1 && k.log == j.log + [Built(u)] && j.want[u] <= Uids(j.log) && k.wip == "" && k.phases == j.phases
        && (k.state == Review <==> builds.review) && (k.state == Qa <==> !builds.review && k.index == |k.phases|)
        && (k.state == Developing <==> !builds.review && k.index < |k.phases|)
        && k.work == j.work.(attempts := 0, output := "", diagnosis := "") && k.gateFixes == 0
      else k.index == j.index && k.log == j.log && k.phases == j.phases && k.state !in {Review, Qa}
  {
    GateRuns(cfg, j, builds);
    GateStepSettles(cfg, j, GateOf(cfg, j, builds));
    GateReviewed(cfg, j, builds);
  }

  lemma {:induction false} GateReviewed(cfg: Config, j: Job, builds: Builds)
    ensures GateOf(cfg, j, builds).Green? ==> GateOf(cfg, j, builds).review == builds.review
  {
    var n := GateEnds(cfg, j.wip, j.work.diagnosis, j.gateFixes, builds, 0);
  }

  lemma {:induction false} GateStepSettles(cfg: Config, j: Job, gate: Gate)
    requires PlanKept(j) && ProgressKept(j) && j.index < |j.phases|
    ensures var k := GateStep(cfg, j, gate); var u := InTurn(j).uid;
      if gate.Green? && j.index + 1 !in j.unread
      then
        && k.index == j.index + 1 && k.log == j.log + [Built(u)] && j.want[u] <= Uids(j.log) && k.wip == "" && k.phases == j.phases
        && k.state == (if gate.review then Review else if k.index == |k.phases| then Qa else Developing)
        && k.work == j.work.(attempts := 0, output := "", diagnosis := "") && k.gateFixes == 0
      else k.index == j.index && k.log == j.log && k.phases == j.phases && k.state !in {Review, Qa}
  {
    if gate.Green? && j.index + 1 !in j.unread {
      WantedSettled(j);
    }
  }

  lemma {:induction false} WantedSettled(j: Job)
    requires InOrder(j.phases, j.want) && j.index < |j.phases| && SettledUpTo(j, j.index)
    ensures j.want[InTurn(j).uid] <= Uids(j.log)
  {
    forall u | u in j.want[InTurn(j).uid] ensures u in Uids(j.log) {
      assert u in Before(j.phases, j.index + 1);
      var n: nat :| 1 <= n < j.index + 1 && n <= |j.phases| && At(j.phases, n).uid == u;
    }
  }

  /** A gate that stays red counts one attempt: after the last there is it has failed, before
      that the supervisor's word goes, to the specialist, the Architect or a person. The
      Architect is sent the plan from the phase in turn on. */
  lemma {:induction false} RedLeads(cfg: Config, j: Job, builds: Builds, n: nat)
    requires j.state == BuildGate && j.index < |j.phases| && RedAt(cfg, j.gateFixes, builds, n)
    ensures Next(cfg, j, GateRun(builds)).Some?
    ensures var k := Next(cfg, j, GateRun(builds)).value; var spent := cfg.maxAttempts <= j.work.attempts + 1;
      && (k.state == Failed <==> spent) && (spent ==> k.failedFrom == BuildGate)
      && (k.state == Developing <==> !spent && builds.choice == Fix)
      && (k.state == Architecture <==> !spent && builds.choice == Replan)
      && (k.state == AwaitDecision <==> !spent && builds.choice == Ask)
      && (k.state == AwaitDecision ==> k.resume == Some(Developing))
      && (if k.state == Architecture then k.replanFrom == Some(j.index) && k.work == NO_WORK && k.gateFixes == 0
          else k.replanFrom == j.replanFrom && k.gateFixes == j.gateFixes + n && k.work == j.work.(
            attempts := j.work.attempts + 1, output := builds.build(n).output,
            diagnosis := BlamedAt(cfg, j.work.diagnosis, j.gateFixes, builds, n)))
      && k.wip == LeftAfter(j.wip, builds, n)
  {
    GateComesTo(cfg, j.wip, j.work.diagnosis, j.gateFixes, builds);
    assert GateEndsAt(cfg, j.gateFixes, builds, n);
  }

  /** A gate whose build passed while somebody wrote about the phase: the specialist reads it
      first, and no attempt is counted. */
  lemma {:induction false} UnreadLeads(cfg: Config, j: Job, builds: Builds, n: nat)
    requires j.state == BuildGate && j.index < |j.phases| && GreenAt(cfg, j.gateFixes, builds, n) && j.index + 1 in j.unread
    ensures Next(cfg, j, GateRun(builds)) == Some(j.(
      state := Developing, wip := LeftAfter(j.wip, builds, n), work := j.work.(attempts := 0, output := "", diagnosis := ""), gateFixes := 0))
  {
    GateComesTo(cfg, j.wip, j.work.diagnosis, j.gateFixes, builds);
    assert GateEndsAt(cfg, j.gateFixes, builds, n);
  }

  /** A gate whose builder is gone owes its build alone: once a machine that can build the
      phase comes, it is at the gate again, with what it had written. */
  lemma {:induction false} LostComesBack(cfg: Config, j: Job, builds: Builds, n: nat, arrived: set<Platform>) returns (lost: Job, back: Job)
    requires j.state == BuildGate && j.index < |j.phases| && LostAt(cfg, j.gateFixes, builds, n) && BuildableHere(InTurn(j), arrived)
    ensures Next(cfg, j, GateRun(builds)) == Some(lost) && lost.state == AwaitBuilder
    ensures Next(cfg, lost, BuilderCame(arrived)) == Some(back)
    ensures back == j.(builderResume := BuildGate, wip := LeftAfter(j.wip, builds, n), gateFixes := j.gateFixes + n,
      work := j.work.(diagnosis := SaidAfter(j.work.diagnosis, n)))
  {
    GateComesTo(cfg, j.wip, j.work.diagnosis, j.gateFixes, builds);
    assert GateEndsAt(cfg, j.gateFixes, builds, n);
    GateRuns(cfg, j, builds);
    lost := GateStep(cfg, j, GateOf(cfg, j, builds));
    back := lost.(state := BuildGate);
  }

  // -- a review -----------------------------------------------------------------------------

  /** Where a review leads: sent back while there are rounds left, the reviewed phase is in turn
      again; after the last a person is asked; and without blocking findings QA is next exactly
      when every phase is built, and the phase in turn otherwise, with nothing held against it. */
  lemma {:induction false} ReviewLeads(cfg: Config, j: Job, blocking: nat, enforced: bool)
    requires Inv(cfg, j) && j.state == Review
    ensures Next(cfg, j, PhaseReviewed(blocking, enforced)).Some?
    ensures var k := Next(cfg, j, PhaseReviewed(blocking, enforced)).value;
      var blocked := 0 < blocking && enforced; var left := j.work.rounds < cfg.maxRounds;
      && (k.state == AwaitReview <==> blocked && !left)
      && k.index == j.index - (if blocked && left then 1 else 0)
      && (k.state == Qa <==> !blocked && j.index == |j.phases|)
      && (k.state == Developing <==> (blocked && left) || (!blocked && j.index < |j.phases|))
      && k.work == j.work.(violations := if blocked then blocking else 0,
           rounds := if !blocked then 0 else if left then j.work.rounds + 1 else j.work.rounds)
      && k.phases == j.phases && k.log == j.log && (k.state == Developing ==> k.index < |k.phases|)
  {
    assert j.index <= |j.phases|;
  }

  // -- a phase's turn -------------------------------------------------------------------------

  /** Some phase that is left can be built here. */
  ghost predicate AnyHere(j: Job, here: set<Platform>)
  {
    exists n: nat :: j.index < n <= |j.phases| && BuildableHere(At(j.phases, n), here)
  }

  /** Getting ready brings a phase that can be built here to the front, if one is left. */
  lemma {:induction false} ReadyHere(j: Job, here: set<Platform>)
    requires Ranged(j.phases) && j.index < |j.phases|
    ensures BuildableHere(InTurn(Ready(j, here)), here) <==> AnyHere(j, here)
  {
    if !BuildableHere(InTurn(j), here) && AnyHere(j, here) {
      var f: nat :| j.index < f <= |j.phases| && BuildableHere(At(j.phases, f), here);
      assert f != j.index + 1;
      FirstHere(j, here, f);
    }
  }

  lemma {:induction false} FirstHere(j: Job, here: set<Platform>, f: nat)
    requires Ranged(j.phases) && j.index < f <= |j.phases| && BuildableHere(At(j.phases, f), here) && WouldMove(j, here)
    ensures BuildableHere(InTurn(UnbuildableLast(j, here)), here)
  {
    assert f !in Unbuildable(j.phases, j.index, here);
    var w := FirstIsNotLater(j, Unbuildable(j.phases, j.index, here), f);
    assert w in UpTo(|j.phases|);
  }

  /** A phase's turn, where none is set aside: it waits for a builder exactly when no phase left
      can be built here, for a yes to screens exactly when they are owed, and goes to its gate
      exactly when it was written then, with that and nothing about it unread. Out of budget it
      is set aside, and the next has nothing of its work, exactly where another is free of it. */
  lemma {:induction false} TurnLeads(cfg: Config, j: Job, here: set<Platform>, screens: bool, fits: bool, answer: Answer)
    requires Ranged(j.phases) && j.state == Developing && j.index < |j.phases| && j.index + 1 !in j.parked
    ensures var k := DevelopStep(cfg.filing, j, here, screens, fits, answer); var tried := AnyHere(j, here) && !screens;
      && (k.state == AwaitBuilder <==> !AnyHere(j, here)) && (k.state == AwaitBuilder ==> k.builderResume == Developing)
      && (k.state == AwaitDesign <==> AnyHere(j, here) && screens)
      && (k.state == BuildGate <==> tried && answer.Written?)
      && (k.state == BuildGate ==> BuildableHere(InTurn(k), here) && k.wip == answer.diff && k.unread == j.unread[j.index + 1 := 0])
      && (k.state == Failed <==> tried && answer.Broken?) && (k.state == Failed ==> k.failedFrom == Developing)
      && (k.state == AwaitDecision && !k.budgetStop ==> tried && answer.Looped?)
      && (tried && answer.Looped? ==> k.state == AwaitDecision && k.resume == Some(Developing) && k.budgetStop == j.budgetStop)
      && (tried && answer.Spent? ==>
            if SomeFree(Ready(j, here)) then k.state == Developing && k.work == NO_WORK && k.wip == ""
            else k.state == AwaitDecision && k.budgetStop && k.work == j.work && k.wip == j.wip)
      && k.index == j.index < |k.phases| && k.log == j.log && k.plan == j.plan
  {
    ReadyHere(j, here);
    ReadyIs(j, here);
    DevelopIs(cfg.filing, j, PhaseTurn(here, screens, fits, answer));
    if AnyHere(j, here) && !screens {
      TriedLeads(cfg.filing, Ready(j, here), answer);
    }
  }

  lemma {:induction false} TriedLeads(filing: Filing, l: Job, answer: Answer)
    requires l.state == Developing && l.index < |l.phases|
    ensures var k := AnswerStep(filing, l, answer);
      && k.index == l.index && |k.phases| == |l.phases| && k.log == l.log && k.plan == l.plan
      && match answer
         case Written(diff) => k == l.(state := BuildGate, wip := diff, unread := l.unread[l.index + 1 := 0])
         case Broken => k.state == Failed && k.failedFrom == Developing
         case Looped => k.state == AwaitDecision && k.resume == Some(Developing) && k.budgetStop == l.budgetStop
         case Spent(_) =>
           if SomeFree(l) then k.state == Developing && k.work == NO_WORK && k.wip == ""
           else k == l.(state := AwaitDecision, resume := Some(Developing), budgetStop := true)
  {
    if answer.Spent? && SomeFree(l) {
      ParkedPlace(filing, l, answer.why);
      ParkOnlyFiles(filing, l, answer.why);
    }
  }

  /** A development with no phase left to develop fails. */
  lemma {:induction false} NoTurnFails(cfg: Config, j: Job, e: Event)
    requires e.PhaseTurn? && j.state == Developing && |j.phases| <= j.index
    ensures DevelopStep(cfg.filing, j, e.here, e.screens, e.fits, e.answer) == j.(state := Failed, failedFrom := Developing)
  {
  }

  /** A development that waits for a machine goes on with the very phase it waited with, once
      one comes that can build it. */
  lemma {:induction false} WaitsForBuilder(cfg: Config, j: Job, here: set<Platform>, e: Event, waits: Job, arrived: set<Platform>)
    requires Ranged(j.phases) && j.state == Developing && j.index < |j.phases| && j.index + 1 !in j.parked && !AnyHere(j, here)
    requires e.PhaseTurn? && e.here == here && Next(cfg, j, e) == Some(waits)
    ensures waits == j.(state := AwaitBuilder, builderResume := Developing)
    ensures Next(cfg, waits, BuilderCame(arrived)) == if BuildableHere(InTurn(j), arrived) then Some(j.(builderResume := Developing)) else None
  {
    ReadyHere(j, here);
  }

  // -- QA's second stage ----------------------------------------------------------------------

  /** The tests are written in round `i`: in the first, and where the last red build was the tests' fault. */
  predicate WritesIn(rounds: Rounds, i: nat)
  {
    i == 0 || !rounds.codeIsWrong(i - 1)
  }

  /** Round `i` was gone through and another one after it: what had to be written was, the
      build was red, and the code was fixed where it was wrong. */
  predicate RoundRed(rounds: Rounds, i: nat)
  {
    (WritesIn(rounds, i) ==> rounds.written(i)) && !rounds.green(i) && (rounds.codeIsWrong(i) ==> rounds.fixed(i))
  }

  ghost predicate RedTo(rounds: Rounds, n: nat)
  {
    forall i: nat :: i < n ==> RoundRed(rounds, i)
  }

  /** The whole project is built green in round `n`, with the tests as they had to be written. */
  ghost predicate TestedAt(cfg: Config, attempts: nat, rounds: Rounds, n: nat)
  {
    && RedTo(rounds, n) && (n == 0 || attempts + n < cfg.maxAttempts)
    && (WritesIn(rounds, n) ==> rounds.written(n)) && rounds.green(n)
  }

  /** After `n` red builds. */
  function RedJob(j: Job, n: nat): Job
  {
    j.(work := j.work.(attempts := j.work.attempts + n))
  }

  /** Some round is green, as it has to be. */
  ghost predicate Tested(cfg: Config, attempts: nat, rounds: Rounds)
  {
    exists n: nat :: TestedAt(cfg, attempts, rounds, n)
  }

  /** The tests are put to a person, or QA has failed. */
  ghost predicate TestsIs(j: Job, k: Job, tested: bool)
  {
    if tested then k == j.(state := AwaitTest, work := j.work.(attempts := 0, output := "", diagnosis := ""))
    else k == j.(state := Failed, failedFrom := j.state, work := k.work)
  }

  lemma {:induction false} TestsFrom(cfg: Config, j: Job, rounds: Rounds, i: nat)
    requires RedTo(rounds, i) && (i == 0 || j.work.attempts + i < cfg.maxAttempts)
    ensures TestsIs(j, QaWriteFrom(cfg, RedJob(j, i), rounds, i, WritesIn(rounds, i)), Tested(cfg, j.work.attempts, rounds))
    decreases cfg.maxAttempts - (j.work.attempts + i)
  {
    if WritesIn(rounds, i) && !rounds.written(i) {
      NoneTested(cfg, j.work.attempts, rounds, i);
    } else if rounds.green(i) {
      assert TestedAt(cfg, j.work.attempts, rounds, i);
    } else if cfg.maxAttempts <= j.work.attempts + i + 1 || (rounds.codeIsWrong(i) && !rounds.fixed(i)) {
      NoneTested(cfg, j.work.attempts, rounds, i);
    } else {
      TestsFrom(cfg, j, rounds, i + 1);
    }
  }

  /** Where round `i` is the last and not green, none is. */
  lemma {:induction false} NoneTested(cfg: Config, attempts: nat, rounds: Rounds, i: nat)
    requires RedTo(rounds, i)
    requires (WritesIn(rounds, i) && !rounds.written(i))
      || (!rounds.green(i) && (cfg.maxAttempts <= attempts + i + 1 || (rounds.codeIsWrong(i) && !rounds.fixed(i))))
    ensures !Tested(cfg, attempts, rounds)
  {
    forall n: nat ensures !TestedAt(cfg, attempts, rounds, n) {
      if n < i {
        assert RoundRed(rounds, n);
      } else if i < n && RedTo(rounds, n) {
        assert RoundRed(rounds, i);
      }
    }
  }

  /** QA's turn: at its first stage the list of tests is put to a person; at its second the
      tests are, exactly when the whole project was built green with them, and QA has failed
      otherwise. */
  lemma {:induction false} TestsLead(cfg: Config, j: Job, rounds: Rounds)
    requires j.state == Qa
    ensures var k := QaStep(cfg, j, rounds);
      && (k.state == AwaitTest <==> j.qaStage == 1 || Tested(cfg, j.work.attempts, rounds))
      && (k.state == Failed <==> j.qaStage != 1 && !Tested(cfg, j.work.attempts, rounds)) && (k.state == Failed ==> k.failedFrom == Qa)
      && (k.state == AwaitTest && j.qaStage != 1 ==> k.work.attempts == 0)
      && k == j.(state := k.state, failedFrom := k.failedFrom, work := k.work)
  {
    if j.qaStage != 1 {
      assert RedJob(j, 0) == j;
      TestsFrom(cfg, j, rounds, 0);
    }
  }

  // -- the checks of the pull request ---------------------------------------------------------

  /** The checks passed at look `n`: they were red and fixed before, as often as that is allowed. */
  ghost predicate PassedAt(cfg: Config, attempts: nat, ci: nat -> Ci, n: nat)
  {
    FixedTo(ci, n) && (n == 0 || attempts + n <= cfg.maxCiAttempts) && ci(n).CiPassed?
  }

  ghost predicate FixedTo(ci: nat -> Ci, n: nat)
  {
    forall i: nat :: i < n ==> ci(i) == CiRed(true)
  }

  ghost predicate ChecksPass(cfg: Config, attempts: nat, ci: nat -> Ci)
  {
    exists n: nat :: PassedAt(cfg, attempts, ci, n)
  }

  ghost predicate ShippedIs(j: Job, k: Job, passed: bool)
  {
    if passed then k == j.(state := Done, ciAttempts := k.ciAttempts)
    else k == j.(state := Failed, failedFrom := j.state, ciAttempts := k.ciAttempts)
  }

  lemma {:induction false} ChecksFrom(cfg: Config, j: Job, ci: nat -> Ci, i: nat)
    requires FixedTo(ci, i) && (i == 0 || j.ciAttempts + i <= cfg.maxCiAttempts)
    ensures ShippedIs(j, ShipFrom(cfg, j.(ciAttempts := j.ciAttempts + i), ci, i), ChecksPass(cfg, j.ciAttempts, ci))
    decreases cfg.maxCiAttempts - (j.ciAttempts + i)
  {
    match ci(i)
    case CiPassed => assert PassedAt(cfg, j.ciAttempts, ci, i);
    case CiPending => NonePassed(cfg, j.ciAttempts, ci, i);
    case CiRed(fixed) =>
      if cfg.maxCiAttempts < j.ciAttempts + i + 1 || !fixed {
        NonePassed(cfg, j.ciAttempts, ci, i);
      } else {
        ChecksFrom(cfg, j, ci, i + 1);
      }
  }

  lemma {:induction false} NonePassed(cfg: Config, attempts: nat, ci: nat -> Ci, i: nat)
    requires FixedTo(ci, i) && (ci(i).CiPending? || ci(i) == CiRed(false) || (ci(i).CiRed? && cfg.maxCiAttempts < attempts + i + 1))
    ensures !ChecksPass(cfg, attempts, ci)
  {
    forall n: nat ensures !PassedAt(cfg, attempts, ci, n) {
      if i < n && FixedTo(ci, n) {
        assert ci(i) == CiRed(true);
      } else if n < i {
        assert ci(n) == CiRed(true);
      }
    }
  }

  /** DevOps' turn: a deployment is put to a person exactly when one is proposed and none was
      decided on before; else it is done exactly when the checks pass so, and failed otherwise. */
  lemma {:induction false} ShippingLeads(cfg: Config, j: Job, shipping: Shipping)
    requires j.state == DevOps
    ensures var k := ShipStep(cfg, j, shipping); var asks := shipping.proposed && j.devopsStage == 1;
      && (k.state == AwaitDeploy <==> asks)
      && (k.state == Done <==> !asks && ChecksPass(cfg, j.ciAttempts, shipping.ci))
      && (k.state == Failed <==> !asks && !ChecksPass(cfg, j.ciAttempts, shipping.ci)) && (k.state == Failed ==> k.failedFrom == DevOps)
      && k.devopsStage == (if asks then 1 else 2)
      && k == j.(state := k.state, failedFrom := k.failedFrom, ciAttempts := k.ciAttempts, devopsStage := k.devopsStage)
  {
    if !(shipping.proposed && j.devopsStage == 1) {
      var l := j.(devopsStage := 2);
      assert l.(ciAttempts := l.ciAttempts + 0) == l;
      ChecksFrom(cfg, l, shipping.ci, 0);
    }
  }

  // -- what was done by hand ------------------------------------------------------------------

  /** How many of the first are true, without a break: all of those are, and the next is not. */
  lemma {:induction false} LeadingRunIs(run: seq<bool>)
    ensures var n := LeadingRun(run); (forall i :: 0 <= i < n ==> run[i]) && (n < |run| ==> !run[n])
  {
    if run != [] && run[0] {
      LeadingRunIs(run[1..]);
      assert forall i :: 0 < i < LeadingRun(run) ==> run[i] == run[1..][i - 1];
    }
  }

  /** The answer says that phase `n` is done. */
  predicate FoundDone(found: map<nat, bool>, n: nat)
  {
    n in found && found[n]
  }

  ghost predicate AllFound(j: Job, found: map<nat, bool>)
  {
    forall n: nat :: j.index < n <= |j.phases| ==> FoundDone(found, n)
  }

  /** A development carries on from phase `k.index` as the reading says: every phase passed
      over was found done, and the one in turn then was not; just those are logged, in order, as
      done by hand; and QA is next exactly when every phase left was found done. */
  ghost predicate CarriesOn(j: Job, found: map<nat, bool>, k: Job)
  {
    && j.index <= k.index <= |k.phases| && k.phases == j.phases && k.work == NO_WORK && k.gateFixes == 0
    && (forall n: nat :: j.index < n <= k.index ==> FoundDone(found, n))
    && (k.index < |k.phases| ==> !FoundDone(found, k.index + 1))
    && j.log <= k.log && |k.log| == |j.log| + (k.index - j.index)
    && (forall n: nat :: j.index < n <= k.index ==> k.log[|j.log| + (n - j.index - 1)] == ByHand(At(j.phases, n).uid))
    && (k.state == Qa <==> AllFound(j, found)) && (k.state == Developing <==> k.index < |k.phases|)
  }

  /** What people pushed is read and the reading accepted: it carries on where the reading
      says, and QA is next exactly when every phase left was found done. */
  lemma {:induction false} ReadThenAccepted(cfg: Config, j: Job, found: map<nat, bool>, drawing: bool, empty: bool) returns (read: Job, k: Job)
    requires Placed(j) && j.state == Reconcile
    ensures Next(cfg, j, PhasesRead(found)) == Some(read) && read.state == AwaitReconcile && read.log == j.log && read.index == j.index
    ensures ApproveStep(read, drawing, empty) == Some(k) && CarriesOn(j, found, k)
  {
    read := ReadStep(j, found);
    ReadingComes(cfg, j, found);
    k := AcceptReading(read.(rejects := 0));
    AcceptHappens(read, found, drawing, empty);
    AcceptedIs(j, found, read.(rejects := 0));
  }

  lemma {:induction false} ReadingComes(cfg: Config, j: Job, found: map<nat, bool>)
    requires Placed(j) && j.state == Reconcile
    ensures Next(cfg, j, PhasesRead(found)) == Some(ReadStep(j, found)) && Says(ReadStep(j, found), found)
    ensures var read := ReadStep(j, found); read == j.(state := AwaitReconcile, reading := read.reading)
  {
    PlainPlace(j);
    ReadHappens(cfg, j, found);
    ReadIs(j, found);
  }

  lemma {:induction false} ReadHappens(cfg: Config, j: Job, found: map<nat, bool>)
    requires j.state == Reconcile
    ensures Next(cfg, j, PhasesRead(found)) == Some(ReadStep(j, found))
  {
  }

  lemma {:induction false} AcceptHappens(read: Job, found: map<nat, bool>, drawing: bool, empty: bool)
    requires read.state == AwaitReconcile && Says(read, found)
    ensures ApproveStep(read, drawing, empty) == Some(AcceptReading(read.(rejects := 0)))
  {
  }

  /** The reading says of each phase left whether the answer found it done. */
  ghost predicate Says(j: Job, found: map<nat, bool>)
  {
    && j.reading.Some? && j.reading.value.start == j.index && j.index + |j.reading.value.done| == |j.phases|
    && forall n: nat :: j.index < n <= |j.phases| ==> (j.reading.value.done[n - j.index - 1] <==> FoundDone(found, n))
  }

  lemma {:induction false} AcceptedIs(j: Job, found: map<nat, bool>, read: Job)
    requires Says(read, found) && read.index == j.index && read.phases == j.phases && read.log == j.log
    ensures CarriesOn(j, found, AcceptReading(read))
  {
    var k, done := AcceptReading(read), read.reading.value.done;
    LeadingRunIs(done);
    forall n: nat | j.index < n <= k.index ensures FoundDone(found, n) {
      assert done[n - j.index - 1];
    }
    if k.index < |k.phases| {
      assert !FoundDone(found, k.index + 1);
    }
  }

  lemma {:induction false} ReadIs(j: Job, found: map<nat, bool>)
    requires j.pause.Some? && j.pause.value.index == j.index <= |j.phases|
    ensures var read := ReadStep(j, found); read == j.(state := AwaitReconcile, reading := read.reading)
    ensures Says(ReadStep(j, found), found)
  {
  }
}
