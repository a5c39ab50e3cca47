/**
 What decisions and handlers come to together (`approve`, `reject`, `pause`, `carry_on`,
 `redirect`, `replan_phase`, `retry`, `replan`, `_build_gate`, `_review`,
 slipwright/engine.py): what a second one makes of the first, what neither touches, and
 exactly when one is refused.
 */
module Decisions {
  import opened Wrappers
  import opened Plan
  import opened Reordering
  import opened Job
  import opened Safety
  import opened Parking
  import opened Termination
  import opened Outcomes

  // -- the phase in turn ------------------------------------------------------------------

  /** However often QA corrects its tests at one gate, it is no more than it may for the phase. */
  lemma {:induction false} CorrectionsBounded(cfg: Config, wip: string, diagnosis: string, fixes: nat, builds: Builds, i: nat)
    requires fixes <= cfg.maxGateFixes
    ensures match GateFrom(cfg, wip, diagnosis, fixes, builds, i)
      case Green(_, review) => review == builds.review
      case Red(_, _, _, choice, after) => choice == builds.choice && fixes <= after <= cfg.maxGateFixes
      case Lost(_, _, after) => fixes <= after <= cfg.maxGateFixes
    decreases cfg.maxGateFixes - fixes
  {
    if builds.build(i).Failing? && fixes < cfg.maxGateFixes && builds.triage(i).Corrected? {
      CorrectionsBounded(cfg, builds.triage(i).wip, "", fixes + 1, builds, i + 1);
    }
  }

  /** A phase its review sends back, built green again, is in review again: the same phase,
      with one round more, and never more rounds than there may be. */
  lemma {:induction false} ReviewComesBack(cfg: Config, j: Job, blocking: nat, here: set<Platform>, diff: string, builds: Builds)
      returns (back: Job, built: Job, again: Job)
    requires Inv(cfg, j) && j.state == Review && 0 < blocking && j.work.rounds < cfg.maxRounds && j.unread == multiset{}
    requires At(j.phases, j.index).platform.None? && j.index !in j.parked && Passes(cfg, j, builds) && builds.review
    ensures Next(cfg, j, PhaseReviewed(blocking, true)) == Some(back)
    ensures Next(cfg, back, PhaseTurn(here, false, true, Written(diff))) == Some(built)
    ensures Next(cfg, built, GateRun(builds)) == Some(again)
    ensures again.state == Review && again.index == j.index && again.phases == j.phases
    ensures again.work.rounds == j.work.rounds + 1 <= cfg.maxRounds && again.work.violations == blocking
    ensures Uids(again.log) == Uids(j.log)
  {
    SentBack(cfg, j, blocking);
    back := j.(state := Developing, index := j.index - 1, work := j.work.(violations := blocking, rounds := j.work.rounds + 1));
    built := back.(state := BuildGate, wip := diff);
    RewrittenThen(cfg, back, here, diff);
    OneBehindKept(j, built);
    again := BuiltGreen(cfg, built, builds);
    SettledTwice(j.log, At(j.phases, j.index).uid);
  }

  lemma {:induction false} OneBehindKept(j: Job, built: Job)
    requires PlanKept(j) && ProgressKept(j) && 0 < j.index
    requires built == j.(state := BuildGate, index := j.index - 1, work := built.work, wip := built.wip)
    ensures PlanKept(built) && ProgressKept(built) && built.index < |built.phases| && At(j.phases, j.index).uid in Uids(j.log)
  {
  }

  lemma {:induction false} BuiltGreen(cfg: Config, built: Job, builds: Builds) returns (again: Job)
    requires PlanKept(built) && ProgressKept(built) && built.state == BuildGate && built.index < |built.phases| && built.unread == multiset{}
    requires Passes(cfg, built, builds) && builds.review
    ensures Next(cfg, built, GateRun(builds)) == Some(again)
    ensures again.state == Review && again.index == built.index + 1 && again.phases == built.phases
    ensures again.work.rounds == built.work.rounds && again.work.violations == built.work.violations
    ensures again.log == built.log + [Built(InTurn(built).uid)]
  {
    GateSettles(cfg, built, builds);
    again := Next(cfg, built, GateRun(builds)).value;
  }

  lemma {:induction false} SentBack(cfg: Config, j: Job, blocking: nat)
    requires j.state == Review && 0 < j.index <= |j.phases| && 0 < blocking && j.work.rounds < cfg.maxRounds
    ensures Next(cfg, j, PhaseReviewed(blocking, true))
      == Some(j.(state := Developing, index := j.index - 1, work := j.work.(violations := blocking, rounds := j.work.rounds + 1)))
  {
  }

  lemma {:induction false} RewrittenThen(cfg: Config, j: Job, here: set<Platform>, diff: string)
    requires j.state == Developing && j.index < |j.phases| && InTurn(j).platform.None? && j.index + 1 !in j.parked && j.unread == multiset{}
    ensures Next(cfg, j, PhaseTurn(here, false, true, Written(diff))) == Some(j.(state := BuildGate, wip := diff))
  {
    assert j.unread[j.index + 1 := 0] == multiset{};
  }

  lemma {:induction false} SettledTwice(log: seq<Settled>, u: nat)
    requires u in Uids(log)
    ensures Uids(log + [Built(u)]) == Uids(log)
  {
    LogGrows(log, [Built(u)]);
    assert forall v :: v in Uids([Built(u)]) ==> v == u;
  }

  // -- plans --------------------------------------------------------------------------------

  /** The Architect's plan is taken exactly when it was not rejected too often and is sound behind
      the phases that are kept, and QA's attempts begin anew; a person's, at its gate, exactly when
      it is not empty and sound as a whole, kept phases and all. */
  lemma {:induction false} PlansTaken(cfg: Config, j: Job, drafts: seq<Draft>)
    requires Inv(cfg, j)
    ensures j.state == Architecture ==>
      var step := Next(cfg, j, PlanWritten(drafts)); var kept := KeptOf(j); var whole := Compose(j, kept, Whole(j.phases, kept, drafts));
      && step.Some? && (step.value.state == AwaitArchitecture <==> j.rejects <= cfg.maxRejects && Sound(whole, kept))
      && (step.value.state == AwaitArchitecture ==>
            step.value.phases == whole && step.value.index == kept && step.value.work == j.work.(attempts := 0, output := ""))
      && (step.value.state != AwaitArchitecture ==> step.value == j.(state := Failed, failedFrom := Architecture))
    ensures j.state == AwaitArchitecture ==>
      var step := Next(cfg, j, PlanEdited(drafts)); var edited := Compose(j, KeptOf(j), drafts);
      && (step.Some? <==> drafts != [] && Sound(edited, 0))
      && (step.Some? ==> step.value.phases == edited && step.value.index == KeptOf(j) && step.value.state == AwaitArchitecture)
  {
  }

  /** What is drafted is what the plan says, phase for phase. */
  lemma {:induction false} PlanSays(j: Job, kept: nat, drafts: seq<Draft>, n: nat)
    requires 1 <= n <= |drafts|
    ensures DraftOf(At(Compose(j, kept, drafts), n)) == drafts[n - 1]
  {
    var most := if kept < |j.phases| then kept else |j.phases|;
    var same := seq(if most < |drafts| then most else |drafts|, i requires 0 <= i < most && i < |drafts| => DraftOf(j.phases[i]) == drafts[i]);
    assert RunKept(j.phases, kept, drafts) == LeadingRun(same);
    LeadingRunIs(same);
    if n <= LeadingRun(same) {
      assert same[n - 1];
    }
  }

  /** So the Architect's plan says of the kept phases what they said and of the new ones what was
      drafted. */
  lemma {:induction false} ReplanSays(j: Job, drafts: seq<Draft>, n: nat)
    requires KeptOf(j) <= |j.phases| && 1 <= n <= KeptOf(j) + |drafts|
    ensures var whole := Compose(j, KeptOf(j), Whole(j.phases, KeptOf(j), drafts));
      && |whole| == KeptOf(j) + |drafts|
      && DraftOf(At(whole, n)) == if n <= KeptOf(j) then DraftOf(At(j.phases, n)) else drafts[n - KeptOf(j) - 1]
  {
    PlanSays(j, KeptOf(j), Whole(j.phases, KeptOf(j), drafts), n);
  }

  // -- a plan made again --------------------------------------------------------------------

  /** A plan sent back from phase `at` on and made again: the phases before it are the same
      ones, settled as they were, wanting what they wanted, and it goes on behind them. */
  lemma {:induction false} ReplanKeepsBuilt(cfg: Config, j: Job, at: nat, drafts: seq<Draft>, n: nat)
    requires PlanKept(j) && ProgressKept(j) && at <= j.index && 1 <= n <= at && j.rejects <= cfg.maxRejects
    requires PlanStep(cfg, ReplanFromStep(j, at), drafts).state == AwaitArchitecture
    ensures var k := PlanStep(cfg, ReplanFromStep(j, at), drafts);
      && k.index == at && at + |drafts| == |k.phases| && At(k.phases, n).uid == At(j.phases, n).uid
      && At(k.phases, n).uid in Uids(k.log) && k.log == j.log
      && At(k.phases, n).uid in k.want && k.want[At(k.phases, n).uid] == j.want[At(k.phases, n).uid]
      && k.approved == j.approved && k.plan == j.plan + 1
  {
    var back := ReplanFromStep(j, at);
    var whole := Whole(j.phases, at, drafts);
    KeptWhole(back, drafts);
    ComposeUids(back, at, whole, n);
    ComposeDistinct(back, at, whole);
    WantsLookup(back, Compose(back, at, whole), j.nextObj + |whole|, n);
    assert At(j.phases, n).uid in j.want;
  }

  /** A person has the plan made again: exactly where it may be, while there is a plan, and
      from the phase in turn on. */
  lemma {:induction false} RedirectGoesBack(cfg: Config, j: Job)
    requires Inv(cfg, j)
    ensures Next(cfg, j, Redirected).Some? <==> Redirectable(j.state) && 0 < j.plan
    ensures Next(cfg, j, Redirected).Some? ==> var back := Next(cfg, j, Redirected).value;
      && back.state == Architecture && KeptOf(back) == back.index == j.index && back.phases == j.phases && back.log == j.log
      && back.parked == j.parked && back.approved == j.approved && back.work == NO_WORK && !back.budgetStop && back.resume.None?
  {
  }

  /** The plan that is made then keeps every phase built before, settled as it was, and the
      phase in turn is the first of the new ones. */
  lemma {:induction false} RedirectKeepsBuilt(cfg: Config, j: Job, drafts: seq<Draft>, n: nat) returns (back: Job, made: Job)
    requires Inv(cfg, j) && Redirectable(j.state) && 0 < j.plan && 1 <= n <= j.index
    ensures Next(cfg, j, Redirected) == Some(back) && Next(cfg, back, PlanWritten(drafts)) == Some(made)
    ensures made.state == AwaitArchitecture ==>
      && made.index == j.index && |made.phases| == j.index + |drafts| && made.log == j.log
      && At(made.phases, n).uid == At(j.phases, n).uid && At(made.phases, n).uid in Uids(made.log)
  {
    var asked := j.(resume := None);
    back := ReplanFromStep(asked, j.index);
    RedirectGoesBack(cfg, j);
    made := PlanStep(cfg, back, drafts);
    PlanMadeAgain(cfg, back, drafts);
    if made.state == AwaitArchitecture {
      ReplanKeepsBuilt(cfg, asked, j.index, drafts, n);
    }
  }

  lemma {:induction false} PlanMadeAgain(cfg: Config, back: Job, drafts: seq<Draft>)
    requires back.state == Architecture && KeptOf(back) <= |back.phases|
    ensures Next(cfg, back, PlanWritten(drafts)) == Some(PlanStep(cfg, back, drafts))
    ensures PlanStep(cfg, back, drafts).state == AwaitArchitecture ==> back.rejects <= cfg.maxRejects
  {
  }

  /** Where the two doors lead: a phase is planned anew exactly where its budget is the question,
      and a redirect there comes to the same. */
  lemma {:induction false} DoorsAgree(cfg: Config, j: Job)
    requires Inv(cfg, j)
    ensures Next(cfg, j, PhaseReplanned).Some? <==> j.state == AwaitDecision && j.budgetStop
    ensures Next(cfg, j, PhaseReplanned).Some? && 0 < j.plan ==> Next(cfg, j, Redirected) == Next(cfg, j, PhaseReplanned)
  {
  }

  /** The plan is walked from its first phase on, with counters afresh and QA's list to be made, and
      none of its phases is settled; what was settled stays so. */
  ghost predicate WalkedAnew(j: Job, made: Job)
  {
    && made.state == AwaitArchitecture && made.index == 0 && made.log == j.log
    && made.qaStage == 1 && made.rejects == 0 && made.ciAttempts == 0
    && made.work == NO_WORK.(diagnosis := j.work.diagnosis, calls := j.work.calls)
    && forall n: nat :: 1 <= n <= |made.phases| ==> At(made.phases, n).uid !in Uids(made.log)
  }

  /** Started over after a failure and planned again: every phase of the new plan is a new
      one, so none of them is settled and all are walked again. */
  lemma {:induction false} StartedOverBuildsAnew(cfg: Config, j: Job, drafts: seq<Draft>) returns (over: Job, planning: Job, made: Job)
    requires Inv(cfg, j) && j.state == Failed && Sound(Compose(StartOverStep(j).value, 0, drafts), 0)
    ensures Next(cfg, j, StartedOver) == Some(over) && over.state == Backlog && over.index == 0
    ensures Next(cfg, over, BacklogWritten(true)) == Some(planning) && planning.state == Architecture && KeptOf(planning) == 0
    ensures PlanStep(cfg, planning, drafts) == made && |made.phases| == |drafts| && WalkedAnew(j, made)
  {
    over := StartOverStep(j).value;
    planning := over.(state := Architecture);
    made := PlanStep(cfg, planning, drafts);
    StartsOver(cfg, j);
    PlannedAnew(cfg, j, planning, drafts);
    GoesToPlan(cfg, over, planning);
  }

  lemma {:induction false} StartsOver(cfg: Config, j: Job)
    requires j.state == Failed
    ensures Next(cfg, j, StartedOver) == StartOverStep(j)
    ensures var over := StartOverStep(j).value; over.state == Backlog && over.index == 0 && over.replanFrom.None? && over.rejects == 0
  {
  }

  lemma {:induction false} GoesToPlan(cfg: Config, over: Job, planning: Job)
    requires over.state == Backlog && over.rejects == 0 && planning == over.(state := Architecture)
    ensures Next(cfg, over, BacklogWritten(true)) == Some(planning)
  {
  }

  lemma {:induction false} PlannedAnew(cfg: Config, j: Job, planning: Job, drafts: seq<Draft>)
    requires Inv(cfg, j) && j.state == Failed && planning == StartOverStep(j).value.(state := Architecture)
    requires Sound(Compose(StartOverStep(j).value, 0, drafts), 0)
    ensures |PlanStep(cfg, planning, drafts).phases| == |drafts| && WalkedAnew(j, PlanStep(cfg, planning, drafts))
  {
    assert Whole(planning.phases, 0, drafts) == drafts;
    assert Compose(planning, 0, drafts) == Compose(StartOverStep(j).value, 0, drafts);
    var made := PlanStep(cfg, planning, drafts);
    forall n: nat | 1 <= n <= |made.phases| ensures At(made.phases, n).uid !in Uids(made.log) {
      ComposeUids(planning, 0, drafts, n);
      NotSettledYet(j, At(made.phases, n).uid);
    }
  }

  lemma {:induction false} NotSettledYet(j: Job, u: nat)
    requires PlanKept(j) && ProgressKept(j) && j.nextUid <= u
    ensures u !in Uids(j.log)
  {
    forall k: nat | k < |j.log| ensures UidOf(j.log[k]) != u {
      assert UidOf(j.log[k]) in j.want;
    }
  }

  // -- yes and no ---------------------------------------------------------------------------

  /** There is nothing at this gate to approve. */
  predicate NothingThere(j: Job, empty: bool)
  {
    empty && (j.state == AwaitDesign || j.state == AwaitDeploy || (j.state == AwaitTest && j.qaStage == 1))
  }

  /** An approval is refused exactly away from a gate, where a phase's budget is the question,
      and where there is nothing to approve. */
  lemma {:induction false} ApprovalRefused(cfg: Config, j: Job, drawing: bool, empty: bool)
    requires Inv(cfg, j)
    ensures ApproveStep(j, drawing, empty).None?
      <==> !Approval(j.state) || (j.state == AwaitDecision && j.budgetStop) || NothingThere(j, empty)
  {
  }

  /** No gate is left by an approval for another gate, and no plan is approved but at its own. */
  lemma {:induction false} ApprovalGoesOn(cfg: Config, j: Job, drawing: bool, empty: bool)
    requires Inv(cfg, j) && ApproveStep(j, drawing, empty).Some?
    ensures var k := ApproveStep(j, drawing, empty).value;
      && Working(k.state) && Legal(j.state, k.state) && k.rejects == 0
      && (k.approved != j.approved ==> j.state == AwaitArchitecture)
      && (j.state == AwaitArchitecture ==> PlanApproved(k))
  {
    if j.state == AwaitReconcile {
      AcceptPlaced(j, drawing, empty);
    }
  }

  /** The state a rejection at gate `s` goes back to, where `from` is the state whose handler
      came to that gate: to that handler, but for screens, which are drawn again, and for a
      reviewed phase, which goes back to the specialist. A question after a red build is
      answered to the specialist too. */
  function SentBackTo(s: State, from: State): State
  {
    match s
    case AwaitDesign => Design
    case AwaitReview => Developing
    case AwaitDecision => if from == BuildGate then Developing else from
    case _ => from
  }

  /** A rejection is counted but for screens, a review and a question, and a sent back phase has all
      its rounds again; a budget that was asked about is there again; nothing else is touched. */
  ghost predicate OnlySentBack(gate: Job, back: Job)
  {
    && back == gate.(state := back.state, index := back.index, rejects := back.rejects, work := back.work,
         resume := back.resume, budgetStop := back.budgetStop)
    && back.rejects == (if gate.state == AwaitDesign || gate.state == AwaitReview || gate.state == AwaitDecision then 0 else gate.rejects + 1)
    && back.work == (if gate.state == AwaitReview then gate.work.(rounds := 0)
                     else if gate.state == AwaitDecision && gate.budgetStop then gate.work.(calls := 0, attempts := 0) else gate.work)
    && (gate.state != AwaitReview ==> back.index == gate.index)
    && (gate.state == AwaitDecision ==> back.resume.None? && !back.budgetStop)
  }

  /** The step to `gate` is undone, as far as the state goes, and a reviewed phase is in turn again. */
  ghost predicate SentBackFrom(j: Job, gate: Job, back: Job)
  {
    && back.state == SentBackTo(gate.state, j.state) && Legal(gate.state, back.state)
    && (gate.state == AwaitReview ==> back.index + 1 == j.index) && OnlySentBack(gate, back)
  }

  /** Whatever handler came to the gate, a rejection there is accepted and undoes its step as
      far as the state goes; a reviewed phase is in turn again. It settles nothing and moves
      no phase. */
  lemma {:induction false} RejectionGoesBack(cfg: Config, j: Job, e: Event, gate: Job)
    requires Inv(cfg, j) && Unattended(e) && !e.AutoApproved? && Next(cfg, j, e) == Some(gate) && Approval(gate.state)
    ensures RejectStep(gate).Some? && SentBackFrom(j, gate, RejectStep(gate).value)
  {
    GateReached(cfg, j, e, gate);
    HandlerRan(cfg, j, e);
    RejectedIs(j, gate);
  }

  lemma {:induction false} HandlerRan(cfg: Config, j: Job, e: Event)
    requires Unattended(e) && !e.AutoApproved? && Next(cfg, j, e).Some?
    ensures Working(j.state)
  {
  }

  lemma {:induction false} RejectedIs(j: Job, gate: Job)
    requires Reached(j, gate) && Approval(gate.state) && Working(j.state) && PlaceKept(j)
    ensures RejectStep(gate).Some? && SentBackFrom(j, gate, RejectStep(gate).value)
  {
  }

  function ComesFrom(s: State): State
  {
    match s
    case AwaitBacklog => Backlog
    case AwaitArchitecture => Architecture
    case AwaitDesign => Developing
    case AwaitReview => Review
    case AwaitTest => Qa
    case AwaitDeploy => DevOps
    case AwaitReconcile => Reconcile
    case _ => s
  }

  /** Each gate is come to from one state alone, but for a question, which remembers its own. */
  ghost predicate Reached(j: Job, gate: Job)
  {
    if gate.state == AwaitDecision then gate.resume == Some(SentBackTo(AwaitDecision, j.state))
    else j.state == ComesFrom(gate.state) && (gate.state == AwaitReview ==> gate.index == j.index)
  }

  lemma {:induction false} GateReached(cfg: Config, j: Job, e: Event, gate: Job)
    requires Unattended(e) && !e.AutoApproved? && Next(cfg, j, e) == Some(gate) && Approval(gate.state)
    ensures Reached(j, gate)
  {
    match e
    case PhaseTurn(_, _, _, _) => TurnReached(cfg, j, e, gate);
    case TestsTurn(rounds) => QaWriteKeeps(cfg, j, rounds, 0, true);
    case ShippingTurn(shipping) => ShipFromKeeps(cfg, j.(devopsStage := 2), shipping.ci, 0);
    case GateRun(builds) => RedReached(cfg, j, GateOf(cfg, j, builds));
    case PhaseReviewed(blocking, enforced) => ReviewReached(cfg, j, blocking, enforced);
    case _ => PlainReached(cfg, j, e, gate);
  }

  lemma {:induction false} RedReached(cfg: Config, j: Job, gate: Gate)
    requires j.state == BuildGate && j.index < |j.phases| && Approval(GateStep(cfg, j, gate).state)
    ensures Reached(j, GateStep(cfg, j, gate))
  {
  }

  lemma {:induction false} ReviewReached(cfg: Config, j: Job, blocking: nat, enforced: bool)
    requires j.state == Review && Approval(ReviewStep(cfg, j, blocking, enforced).state)
    ensures Reached(j, ReviewStep(cfg, j, blocking, enforced))
  {
  }

  lemma {:induction false} PlainReached(cfg: Config, j: Job, e: Event, gate: Job)
    requires e.BacklogWritten? || e.PlanWritten? || e.ScreensDrawn? || e.PhasesRead? || e.HandlerFailed? || e.HandlerLooped?
    requires Next(cfg, j, e) == Some(gate) && Approval(gate.state)
    ensures Reached(j, gate)
  {
    match e
    case PlanWritten(drafts) => PlanReached(cfg, j, drafts);
    case PhasesRead(found) => ReadReached(j, found);
    case _ =>
  }

  lemma {:induction false} ReadReached(j: Job, found: map<nat, bool>)
    requires j.state == Reconcile && Approval(ReadStep(j, found).state)
    ensures Reached(j, ReadStep(j, found))
  {
  }

  lemma {:induction false} PlanReached(cfg: Config, j: Job, drafts: seq<Draft>)
    requires j.state == Architecture && KeptOf(j) <= |j.phases| && Approval(PlanStep(cfg, j, drafts).state)
    ensures Reached(j, PlanStep(cfg, j, drafts))
  {
  }

  lemma {:induction false} TurnReached(cfg: Config, j: Job, e: Event, gate: Job)
    requires e.PhaseTurn? && j.state == Developing && Approval(gate.state)
    requires gate == DevelopStep(cfg.filing, j, e.here, e.screens, e.fits, e.answer)
    ensures Reached(j, gate)
  {
    if j.index < |j.phases| {
      DevelopIs(cfg.filing, j, e);
      if j.index + 1 !in j.parked {
        ReadyIs(j, e.here);
        TriedReached(cfg.filing, Ready(j, e.here), e);
      }
    }
  }

  lemma {:induction false} TriedReached(filing: Filing, l: Job, e: Event)
    requires e.PhaseTurn? && l.state == Developing && l.index < |l.phases|
    ensures var k := TurnStep(filing, l, e.here, e.screens, e.answer);
      k.state == AwaitDesign || !Approval(k.state) || (k.state == AwaitDecision && k.resume == Some(Developing))
  {
    if Parks(l, e) {
      ParkedPlace(filing, l, e.answer.why);
    } else if BuildableHere(InTurn(l), e.here) && !e.screens {
      AnswerReached(filing, l, e.answer);
    }
  }

  lemma {:induction false} AnswerReached(filing: Filing, l: Job, answer: Answer)
    requires l.state == Developing && l.index < |l.phases| && !(answer.Spent? && SomeFree(l))
    ensures var k := AnswerStep(filing, l, answer); !Approval(k.state) || (k.state == AwaitDecision && k.resume == Some(Developing))
  {
  }

  /** A rejection is refused away from a gate, and only there. */
  lemma {:induction false} RejectionRefused(cfg: Config, j: Job)
    requires Inv(cfg, j)
    ensures RejectStep(j).None? <==> !Approval(j.state)
    ensures RejectStep(j).Some? ==> Working(RejectStep(j).value.state)
  {
  }

  /** And it goes back no more often than it may: then the handler gives up. */
  lemma {:induction false} RejectedTooOften(cfg: Config, j: Job, combined: bool, drafts: seq<Draft>) returns (back: Job)
    requires Inv(cfg, j) && (j.state == AwaitBacklog || j.state == AwaitArchitecture) && cfg.maxRejects <= j.rejects
    ensures Next(cfg, j, Rejected) == Some(back)
    ensures j.state == AwaitBacklog ==> Next(cfg, back, BacklogWritten(combined)) == Some(FailStep(back))
    ensures j.state == AwaitArchitecture ==> Next(cfg, back, PlanWritten(drafts)) == Some(FailStep(back))
  {
    back := RejectStep(j).value;
    assert j.replanFrom.Some? ==> SettledUpTo(j, j.replanFrom.value);
  }

  // -- there and back -------------------------------------------------------------------------

  /** A question that is answered, yes or no, leaves it where it was asked, with no rejection counted. */
  lemma {:induction false} QuestionAnswered(cfg: Config, j: Job, drawing: bool) returns (asked: Job)
    requires Inv(cfg, j) && Working(j.state) && j.state != BuildGate && j.state != Review && !j.budgetStop
    ensures Next(cfg, j, HandlerLooped) == Some(asked)
    ensures Next(cfg, asked, Approved(drawing, false)) == Next(cfg, asked, Rejected) == Some(j.(resume := None, rejects := 0))
  {
    asked := AskStep(j, j.state);
  }

  /** Paused and carried on with nothing brought: where it was, to every counter, but for the
      note of the pause. With something brought it is read first, exactly while phases are
      being built and some are left. */
  lemma {:induction false} PauseRoundTrip(cfg: Config, j: Job, brought: bool) returns (paused: Job, on: Job)
    requires Inv(cfg, j) && Pausable(j.state)
    ensures Next(cfg, j, PausePressed) == Some(paused) && Next(cfg, paused, CarriedOn(brought)) == Some(on)
    ensures var built := BuildingState(if j.state == AwaitDecision then ResumeOf(j) else j.state) && j.index < |j.phases|;
      on == if brought && built then j.(state := Reconcile, reading := None, pause := on.pause) else j.(pause := on.pause)
    ensures Next(cfg, paused, PausePressed).None?
  {
    paused := Next(cfg, j, PausePressed).value;
    on := Next(cfg, paused, CarriedOn(brought)).value;
  }

  /** A handler that failed, retried: where it failed, and a build gate with the specialist;
      nothing it had built, set aside or planned is touched. */
  lemma {:induction false} RetryRoundTrip(cfg: Config, j: Job) returns (failed: Job, again: Job)
    requires Inv(cfg, j) && Working(j.state)
    ensures Next(cfg, j, HandlerFailed) == Some(failed) && Next(cfg, failed, Retried) == Some(again)
    ensures again == j.(state := if j.state == BuildGate then Developing else j.state, failedFrom := j.state,
      work := again.work, rejects := 0, ciAttempts := 0)
    ensures again.work.attempts == again.work.rounds == 0 && again.work.calls == j.work.calls && again.work.violations == j.work.violations
  {
    failed := FailStep(j);
    again := RetryStep(failed).value;
  }
}
