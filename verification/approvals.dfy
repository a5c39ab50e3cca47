/**
 What an answer at a gate leads to (`approve`, `approval_edges`, `reject`, `skip_tests`,
 `skip_deployment`, `_supervise`, `cancel`, slipwright/engine.py): which handler owes the next
 work, and what it makes of the answer.
 */
module Approvals {
  import opened Wrappers
  import opened Plan
  import opened Reordering
  import opened Job
  import opened Safety
  import opened Parking
  import opened Termination
  import opened Outcomes
  import opened Decisions

  // -- yes --------------------------------------------------------------------------------------

  /** Who owes the next work once what the handler of `from` brought to its gate is approved:
      `listed` says that the tests are only listed, `drawing` that there are screens to draw, and
      `left` that a phase is left to build. */
  function OwedAfter(from: State, listed: bool, drawing: bool, left: bool): State
  {
    match from
    case Backlog => Architecture
    case Architecture => if drawing then Design else Developing
    case Review | Reconcile => if left then Developing else Qa
    case Qa => if listed then Qa else DevOps
    case _ => from
  }

  /** Nothing else is touched: a plan is approved at its own gate, a stage of QA or of DevOps is
      behind it at its own. */
  ghost predicate OnlyApproved(gate: Job, k: Job)
  {
    && k == gate.(state := k.state, rejects := 0, resume := k.resume, work := k.work, replanFrom := k.replanFrom, approved := k.approved,
         qaStage := k.qaStage, devopsStage := k.devopsStage)
    && (if gate.state == AwaitArchitecture then k.approved == gate.plan && k.replanFrom.None?
        else k.approved == gate.approved && k.replanFrom == gate.replanFrom)
    && (k.qaStage == if gate.state == AwaitTest && gate.qaStage == 1 then 2 else gate.qaStage)
    && (k.devopsStage == if gate.state == AwaitDeploy then 2 else gate.devopsStage)
    && (gate.state != AwaitReview && gate.state != AwaitTest ==> k.work == gate.work)
  }

  /** The development `k` is where the work owed after the gate is done, on the same phases, and
      none is passed over but by a reading; screens are waited for with a phase in turn. */
  ghost predicate LeadsOnFrom(from: State, gate: Job, drawing: bool, k: Job)
  {
    var left := k.index < |k.phases|;
    && k.state == (if gate.state == AwaitDecision then SentBackTo(AwaitDecision, from)
                   else OwedAfter(from, gate.qaStage == 1, drawing, left))
    && k.phases == gate.phases && (k.index == gate.index || from == Reconcile) && (gate.state == AwaitDesign ==> left)
    && (from == Review && gate.state == AwaitReview ==> k.work == gate.work.(violations := 0, rounds := 0))
    && (from != Reconcile ==> OnlyApproved(gate, k))
  }

  /** Whatever handler came to the gate, its approval leads to the one that owes the next work:
      the plan after the backlog, the screens of a plan that has any, the same phase after its
      screens, QA after the last phase and after the list of tests; and a question goes back to
      who asked it. */
  lemma {:induction false} ApprovalLeads(cfg: Config, j: Job, e: Event, gate: Job, drawing: bool, empty: bool)
    requires Inv(cfg, j) && Unattended(e) && !e.AutoApproved? && Next(cfg, j, e) == Some(gate) && Approval(gate.state)
    requires ApproveStep(gate, drawing, empty).Some?
    ensures LeadsOnFrom(j.state, gate, drawing, ApproveStep(gate, drawing, empty).value)
  {
    GateReached(cfg, j, e, gate);
    if gate.state == AwaitDesign {
      ScreensComeTo(cfg, j, e, gate);
    } else if gate.state == AwaitReview {
      ReviewComesTo(cfg, j, e, gate);
    }
    GateOpens(j, gate, drawing, empty);
  }

  lemma {:induction false} GateOpens(j: Job, gate: Job, drawing: bool, empty: bool)
    requires Reached(j, gate) && ApproveStep(gate, drawing, empty).Some?
    requires (gate.state == AwaitDesign ==> gate.index < |gate.phases|) && (gate.state == AwaitReview ==> gate.index <= |gate.phases|)
    ensures LeadsOnFrom(j.state, gate, drawing, ApproveStep(gate, drawing, empty).value)
  {
    match gate.state
    case AwaitReconcile => ReadingOpens(j, gate, drawing, empty);
    case _ =>
  }

  lemma {:induction false} ReadingOpens(j: Job, gate: Job, drawing: bool, empty: bool)
    requires Reached(j, gate) && gate.state == AwaitReconcile && ApproveStep(gate, drawing, empty).Some?
    ensures LeadsOnFrom(j.state, gate, drawing, ApproveStep(gate, drawing, empty).value)
  {
  }

  lemma {:induction false} ScreensComeTo(cfg: Config, j: Job, e: Event, gate: Job)
    requires Ranged(j.phases) && Unattended(e) && !e.AutoApproved? && Next(cfg, j, e) == Some(gate) && gate.state == AwaitDesign && j.state == Developing
    ensures gate.index < |gate.phases|
  {
    OnlyTurns(cfg, j, e, gate);
    ScreensHavePhase(cfg, j, e, gate);
  }

  lemma {:induction false} ScreensHavePhase(cfg: Config, j: Job, e: Event, gate: Job)
    requires Ranged(j.phases) && e.PhaseTurn? && j.state == Developing && gate.state == AwaitDesign
    requires gate == DevelopStep(cfg.filing, j, e.here, e.screens, e.fits, e.answer)
    ensures gate.index < |gate.phases|
  {
    if j.index < |j.phases| && j.index + 1 !in j.parked {
      TurnLeads(cfg, j, e.here, e.screens, e.fits, e.answer);
    }
  }

  lemma {:induction false} OnlyTurns(cfg: Config, j: Job, e: Event, gate: Job)
    requires Unattended(e) && !e.AutoApproved? && Next(cfg, j, e) == Some(gate) && gate.state == AwaitDesign && j.state == Developing
    ensures e.PhaseTurn? && gate == DevelopStep(cfg.filing, j, e.here, e.screens, e.fits, e.answer)
  {
  }

  lemma {:induction false} ReviewComesTo(cfg: Config, j: Job, e: Event, gate: Job)
    requires j.index <= |j.phases| && Unattended(e) && !e.AutoApproved? && Next(cfg, j, e) == Some(gate) && gate.state == AwaitReview && j.state == Review
    ensures gate.index <= |gate.phases|
  {
  }

  /** The supervisor approves as a person would, with one approval more counted, and as long as
      it may; where there is nothing to approve it only counts. */
  lemma {:induction false} AutoIsApproval(cfg: Config, j: Job, drawing: bool, empty: bool)
    ensures Next(cfg, j, AutoApproved(drawing, empty)).Some? <==> Approval(j.state) && j.state != AwaitDecision && j.autoApprovals < cfg.cap
    ensures Next(cfg, j, AutoApproved(drawing, empty)).Some? ==>
      Next(cfg, j, AutoApproved(drawing, empty)).value == Counted(OrElse(Next(cfg, j, Approved(drawing, empty)), j))
  {
    if Approval(j.state) && j.state != AwaitDecision {
      CountedApproves(j, drawing, empty);
    }
  }

  lemma {:induction false} CountedApproves(j: Job, drawing: bool, empty: bool)
    requires Approval(j.state) && j.state != AwaitDecision
    ensures OrElse(ApproveStep(Counted(j), drawing, empty), Counted(j)) == Counted(OrElse(ApproveStep(j, drawing, empty), j))
  {
    if j.state == AwaitReconcile {
      CountedReads(j, drawing, empty);
    }
  }

  lemma {:induction false} CountedReads(j: Job, drawing: bool, empty: bool)
    requires j.state == AwaitReconcile
    ensures OrElse(ApproveStep(Counted(j), drawing, empty), Counted(j)) == Counted(OrElse(ApproveStep(j, drawing, empty), j))
  {
  }

  // -- what comes of it ---------------------------------------------------------------------------

  /** A backlog written together with its plan is one that was approved: the plan comes next. And
      a backlog sent back is written again. */
  lemma {:induction false} BacklogLeads(cfg: Config, j: Job, drawing: bool, empty: bool) returns (asked: Job, planned: Job)
    requires j.state == Backlog && j.rejects <= cfg.maxRejects
    ensures Next(cfg, j, BacklogWritten(false)) == Some(asked) && asked.state == AwaitBacklog
    ensures Next(cfg, asked, Approved(drawing, empty)) == Some(planned) && planned.state == Architecture && planned.rejects == 0
    ensures Next(cfg, j, BacklogWritten(true)) == Some(planned.(rejects := j.rejects))
    ensures Next(cfg, asked, Rejected) == Some(j.(rejects := j.rejects + 1))
  {
    asked := j.(state := AwaitBacklog);
    planned := j.(state := Architecture, rejects := 0);
  }

  /** The screens of a phase: it waits for them and has its turn once they are approved; sent
      back, they are drawn again, and then it has its turn. */
  lemma {:induction false} ScreensLead(cfg: Config, j: Job, here: set<Platform>, answer: Answer, drawing: bool) returns (asked: Job, drawn: Job, ready: Job)
    requires Ranged(j.phases) && j.state == Developing && j.index < |j.phases| && j.index + 1 !in j.parked && AnyHere(j, here)
    ensures ready == Ready(j, here) && BuildableHere(InTurn(ready), here)
    ensures Next(cfg, j, PhaseTurn(here, true, true, answer)) == Some(asked) && asked.state == AwaitDesign
    ensures Next(cfg, asked, Approved(drawing, false)) == Some(ready.(rejects := 0))
    ensures Next(cfg, asked, ScreensAnswered(false)) == Some(ready)
    ensures Next(cfg, asked, ScreensAnswered(true)) == Some(drawn) && drawn.state == Design
    ensures Next(cfg, asked, Rejected) == Some(drawn.(rejects := 0)) && Next(cfg, drawn, ScreensDrawn) == Some(ready)
  {
    ready := Ready(j, here);
    asked := ready.(state := AwaitDesign);
    drawn := ready.(state := Design);
    ReadyHere(j, here);
    ReadyIs(j, here);
    ScreensAsked(cfg, j, here, answer);
    ScreensBack(cfg, ready, drawing);
  }

  lemma {:induction false} ScreensAsked(cfg: Config, j: Job, here: set<Platform>, answer: Answer)
    requires j.state == Developing && j.index < |j.phases| && j.index + 1 !in j.parked && BuildableHere(InTurn(Ready(j, here)), here)
    ensures Next(cfg, j, PhaseTurn(here, true, true, answer)) == Some(Ready(j, here).(state := AwaitDesign))
  {
  }

  lemma {:induction false} ScreensBack(cfg: Config, ready: Job, drawing: bool)
    requires ready.state == Developing
    ensures var asked := ready.(state := AwaitDesign); var drawn := ready.(state := Design);
      && Next(cfg, asked, Approved(drawing, false)) == Some(ready.(rejects := 0)) && Next(cfg, asked, ScreensAnswered(false)) == Some(ready)
      && Next(cfg, asked, ScreensAnswered(true)) == Some(drawn) && Next(cfg, asked, Rejected) == Some(drawn.(rejects := 0))
      && Next(cfg, drawn, ScreensDrawn) == Some(ready)
  {
  }

  /** The list of tests is approved: QA writes them, with every attempt left, and they are put to
      a person exactly when the whole project is built green with them. Skipped, DevOps follows
      with nothing written; once they are written they cannot be skipped. */
  lemma {:induction false} ListLeads(cfg: Config, j: Job, any: Rounds, rounds: Rounds, drawing: bool) returns (list: Job, writing: Job, written: Job)
    requires j.state == Qa && j.qaStage == 1
    ensures Next(cfg, j, TestsTurn(any)) == Some(list) && list.state == AwaitTest
    ensures Next(cfg, list, Approved(drawing, false)) == Some(writing) && Next(cfg, writing, TestsTurn(rounds)) == Some(written)
    ensures written.state == (if Tested(cfg, 0, rounds) then AwaitTest else Failed) && Next(cfg, written, TestsSkipped).None?
    ensures written == j.(state := written.state, failedFrom := written.failedFrom, qaStage := 2, rejects := 0, work := written.work)
    ensures Next(cfg, list, TestsSkipped) == Some(j.(state := DevOps, rejects := 0))
    ensures Next(cfg, list, Rejected) == Some(j.(rejects := j.rejects + 1))
  {
    list := j.(state := AwaitTest);
    writing := j.(state := Qa, qaStage := 2, rejects := 0, work := j.work.(attempts := 0, output := ""));
    TestsLead(cfg, writing, rounds);
    written := QaStep(cfg, writing, rounds);
  }

  /** A deployment is decided on once: approved or skipped, it is never asked about again, and the
      development is done exactly when its checks pass; rejected, it is proposed again. */
  lemma {:induction false} DeploymentLeads(cfg: Config, j: Job, shipping: Shipping, e: Event, later: Shipping) returns (asked: Job, decided: Job, ended: Job)
    requires j.state == DevOps && j.devopsStage == 1 && shipping.proposed && (e.DeploymentSkipped? || (e.Approved? && !e.empty))
    ensures Next(cfg, j, ShippingTurn(shipping)) == Some(asked) && asked.state == AwaitDeploy
    ensures Next(cfg, asked, e) == Some(decided) && Next(cfg, decided, ShippingTurn(later)) == Some(ended)
    ensures ended.state == (if ChecksPass(cfg, j.ciAttempts, later.ci) then Done else Failed)
    ensures ended == j.(state := ended.state, failedFrom := ended.failedFrom, ciAttempts := ended.ciAttempts, devopsStage := 2, rejects := 0)
    ensures Next(cfg, asked, Rejected) == Some(j.(rejects := j.rejects + 1))
  {
    asked := j.(state := AwaitDeploy);
    decided := j.(devopsStage := 2, rejects := 0);
    ShippingLeads(cfg, decided, later);
    ended := ShipStep(cfg, decided, later);
  }

  /** A phase that spent its budget with nothing free of it: a person is asked, an approval is
      refused, and the answer gives the same phase its budget again. */
  lemma {:induction false} BudgetLeads(cfg: Config, j: Job, here: set<Platform>, why: string, drawing: bool, empty: bool) returns (asked: Job, ready: Job)
    requires Ranged(j.phases) && j.state == Developing && j.index < |j.phases| && j.index + 1 !in j.parked && AnyHere(j, here)
    requires !SomeFree(Ready(j, here))
    ensures ready == Ready(j, here)
    ensures Next(cfg, j, PhaseTurn(here, false, true, Spent(why))) == Some(asked) && asked.state == AwaitDecision && asked.budgetStop
    ensures Next(cfg, asked, Approved(drawing, empty)).None?
    ensures Next(cfg, asked, Rejected) == Some(ready.(resume := None, budgetStop := false, rejects := 0, work := ready.work.(calls := 0, attempts := 0)))
  {
    ready := Ready(j, here);
    asked := AskAboutBudget(ready);
    ReadyHere(j, here);
    ReadyIs(j, here);
    BudgetSpent(cfg, j, here, why);
    BudgetGiven(cfg, ready, drawing, empty);
  }

  lemma {:induction false} BudgetSpent(cfg: Config, j: Job, here: set<Platform>, why: string)
    requires j.state == Developing && j.index < |j.phases| && j.index + 1 !in j.parked
    requires BuildableHere(InTurn(Ready(j, here)), here) && !SomeFree(Ready(j, here))
    ensures Next(cfg, j, PhaseTurn(here, false, true, Spent(why))) == Some(AskAboutBudget(Ready(j, here)))
  {
  }

  lemma {:induction false} BudgetGiven(cfg: Config, ready: Job, drawing: bool, empty: bool)
    requires ready.state == Developing
    ensures Next(cfg, AskAboutBudget(ready), Approved(drawing, empty)).None?
    ensures Next(cfg, AskAboutBudget(ready), Rejected)
      == Some(ready.(resume := None, budgetStop := false, rejects := 0, work := ready.work.(calls := 0, attempts := 0)))
  {
  }

  /** What somebody writes about the phase at its gate is read first: a build that passes settles
      nothing, and once the phase is written again, nothing about it is unread. */
  lemma {:induction false} SteeredIsReadFirst(cfg: Config, j: Job, builds: Builds, here: set<Platform>, diff: string) returns (told: Job, back: Job, again: Job)
    requires j.state == BuildGate && j.index < |j.phases| && Passes(cfg, j, builds) && j.index + 1 !in j.parked && BuildableHere(InTurn(j), here)
    ensures Next(cfg, j, Steered(j.index + 1)) == Some(told) && Next(cfg, told, GateRun(builds)) == Some(back)
    ensures back.state == Developing && back.index == j.index && back.log == j.log
    ensures Next(cfg, back, PhaseTurn(here, false, true, Written(diff))) == Some(again)
    ensures again.state == BuildGate && again.wip == diff && again.index == j.index && again.unread == j.unread[j.index + 1 := 0]
  {
    told := j.(unread := j.unread + multiset{j.index + 1});
    Told(cfg, j);
    back := ReadBeforeSettling(cfg, told, builds);
    again := back.(state := BuildGate, wip := diff, unread := j.unread[j.index + 1 := 0]);
    WrittenAgain(cfg, back, here, diff);
  }

  lemma {:induction false} ReadBeforeSettling(cfg: Config, told: Job, builds: Builds) returns (back: Job)
    requires told.state == BuildGate && told.index < |told.phases| && told.index + 1 in told.unread && Passes(cfg, told, builds)
    ensures Next(cfg, told, GateRun(builds)) == Some(back)
    ensures back == told.(state := Developing, wip := back.wip, work := back.work, gateFixes := 0)
  {
    var n: nat :| GreenAt(cfg, told.gateFixes, builds, n);
    UnreadLeads(cfg, told, builds, n);
    back := Next(cfg, told, GateRun(builds)).value;
  }

  lemma {:induction false} Told(cfg: Config, j: Job)
    requires j.state == BuildGate
    ensures var unread := j.unread + multiset{j.index + 1};
      Next(cfg, j, Steered(j.index + 1)) == Some(j.(unread := unread)) && unread[j.index + 1 := 0] == j.unread[j.index + 1 := 0]
  {
  }

  lemma {:induction false} WrittenAgain(cfg: Config, back: Job, here: set<Platform>, diff: string)
    requires back.state == Developing && back.index < |back.phases| && back.index + 1 !in back.parked && BuildableHere(InTurn(back), here)
    ensures Next(cfg, back, PhaseTurn(here, false, true, Written(diff)))
      == Some(back.(state := BuildGate, wip := diff, unread := back.unread[back.index + 1 := 0]))
  {
  }

  /** A development that is done or cancelled stays so: nothing that comes later changes it, but
      for an approval the supervisor meant to make. */
  lemma {:induction false} EndsForGood(cfg: Config, j: Job, k: Job, e: Event)
    requires k.state == Done || Next(cfg, j, CancelPressed) == Some(k)
    ensures Next(cfg, j, CancelPressed).Some? <==> !Terminal(j.state)
    ensures Next(cfg, k, e) == if e.AutoMissed? && k.autoApprovals < cfg.cap then Some(Counted(k)) else None
  {
  }
}
