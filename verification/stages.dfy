/**
 What a development went through before it is where it is (slipwright/engine.py): nothing is
 settled without a green build or a finding that it is done, nothing is shipped without tests
 that were built green and approved, or skipped, and nothing is developed with no phase in turn.

 Each holds over every run, seen through pauses, questions and failures.
 */
module Stages {
  import opened Wrappers
  import opened Plan
  import opened Reordering
  import opened Job
  import opened Safety
  import opened Parking
  import opened Termination
  import opened Outcomes
  import opened Runs

  predicate ApprovedBy(e: Event)
  {
    e.Approved? || e.AutoApproved?
  }

  // -- one step -----------------------------------------------------------------------------

  /** At DevOps, at its gate, or done. */
  predicate Shipping(j: Job)
  {
    match Behind(j)
    case DevOps | AwaitDeploy | Done => true
    case _ => false
  }

  /** The gate of the tests is left for DevOps: the list of them is skipped, or the tests are approved. */
  predicate LeavesTests(j: Job, e: Event)
  {
    j.state == AwaitTest && if j.qaStage == 1 then e.TestsSkipped? else ApprovedBy(e)
  }

  /** Written tests wait for a yes. */
  predicate AtTests(j: Job)
  {
    Behind(j) == AwaitTest && j.qaStage != 1
  }

  predicate ComesToTests(j: Job, e: Event, k: Job)
  {
    j.state == Qa && j.qaStage != 1 && e.TestsTurn? && k.state == AwaitTest
  }

  predicate ComesToReading(j: Job, e: Event, k: Job)
  {
    j.state == Reconcile && e.PhasesRead? && k.state == AwaitReconcile
  }

  /** A reading waits for a yes, of the same phases from the same one on. */
  predicate SameReading(j: Job, k: Job)
  {
    Behind(j) == AwaitReconcile && k.reading == j.reading && k.phases == j.phases && k.index == j.index
  }

  /** A plan is approved or about to be, and no phase of it is left to develop. */
  predicate NoTurn(j: Job)
  {
    |j.phases| <= j.index && match Behind(j)
      case AwaitArchitecture | Design | Developing => true
      case _ => false
  }

  /** A green build settles the phase in turn. */
  ghost predicate BuiltBy(cfg: Config, j: Job, e: Event)
  {
    j.state == BuildGate && e.GateRun? && j.index < |j.phases| && j.index + 1 !in j.unread && Passes(cfg, j, e.builds)
  }

  /** An accepted reading settles the phases up to `resume`, all of them found done. */
  ghost predicate AcceptedBy(j: Job, e: Event, resume: nat)
  {
    && j.state == AwaitReconcile && ApprovedBy(e) && ReadingFits(j) && j.index <= resume <= |j.phases|
    && forall i: nat :: i < resume - j.index ==> j.reading.value.done[i]
  }

  ghost predicate LogFlows(cfg: Config, j: Job, e: Event, k: Job)
  {
    || k.log == j.log
    || (BuiltBy(cfg, j, e) && k.log == j.log + [Built(InTurn(j).uid)])
    || exists resume: nat :: AcceptedBy(j, e, resume) && k.log == j.log + HandLog(j.phases, j.index, resume)
  }

  /** Where a development comes from when it is at one of these. */
  ghost predicate Flows(cfg: Config, j: Job, e: Event, k: Job)
  {
    && (Shipping(k) ==> Shipping(j) || LeavesTests(j, e))
    && (AtTests(k) ==> AtTests(j) || ComesToTests(j, e, k))
    && (Behind(k) == AwaitReconcile ==> SameReading(j, k) || ComesToReading(j, e, k))
    && (k.plan == j.plan || e.PlanWritten? || e.PlanEdited?) && (NoTurn(k) && k.plan == j.plan ==> NoTurn(j))
    && LogFlows(cfg, j, e, k)
  }

  /** Nothing that matters here changes. */
  ghost predicate StaysThere(j: Job, k: Job)
  {
    && Behind(k) == Behind(j) && k.qaStage == j.qaStage && k.reading == j.reading && k.phases == j.phases && k.index == j.index
    && k.plan == j.plan && k.log == j.log
  }

  lemma {:induction false} StaysFlow(cfg: Config, j: Job, e: Event, k: Job)
    requires StaysThere(j, k)
    ensures Flows(cfg, j, e, k)
  {
  }

  /** It is somewhere else, where none of this is asked for. */
  predicate Elsewhere(s: State)
  {
    match s
    case DevOps | AwaitDeploy | Done | AwaitTest | AwaitReconcile | AwaitArchitecture | Design | Developing => false
    case _ => true
  }

  lemma {:induction false} ElsewhereFlows(cfg: Config, j: Job, e: Event, k: Job)
    requires Elsewhere(Behind(k)) && k.plan == j.plan && k.log == j.log
    ensures Flows(cfg, j, e, k)
  {
  }

  /** There is a phase in turn. */
  lemma {:induction false} DevelopsFlows(cfg: Config, j: Job, e: Event, k: Job)
    requires (Behind(k) == Developing || Behind(k) == Design) && (k.index < |k.phases| || NoTurn(j)) && k.plan == j.plan && k.log == j.log
    ensures Flows(cfg, j, e, k)
  {
  }

  lemma {:induction false} TurnFlows(cfg: Config, j: Job, e: Event, k: Job)
    requires Placed(j) && Ranged(j.phases) && e.PhaseTurn? && j.state == Developing
    requires k == DevelopStep(cfg.filing, j, e.here, e.screens, e.fits, e.answer)
    ensures Flows(cfg, j, e, k)
  {
    if |j.phases| <= j.index {
      NoTurnFails(cfg, j, e);
      StaysFlow(cfg, j, e, k);
    } else if j.index + 1 in j.parked {
      DevelopIs(cfg.filing, j, e);
      StaysFlow(cfg, j, e, k);
    } else {
      TurnLeads(cfg, j, e.here, e.screens, e.fits, e.answer);
      LeadFlows(cfg, j, e, k);
    }
  }

  /** Wherever a turn or a gate leads, the phase in turn is behind it. */
  ghost predicate LeadsOn(j: Job, k: Job)
  {
    && k.index < |k.phases| && k.plan == j.plan && k.log == j.log
    && match k.state
       case AwaitBuilder | AwaitDesign | BuildGate | Developing | Architecture => true
       case Failed => k.failedFrom == Developing || k.failedFrom == BuildGate
       case AwaitDecision => k.resume == Some(Developing)
       case _ => false
  }

  lemma {:induction false} LeadFlows(cfg: Config, j: Job, e: Event, k: Job)
    requires LeadsOn(j, k)
    ensures Flows(cfg, j, e, k)
  {
    if Behind(k) == Developing {
      DevelopsFlows(cfg, j, e, k);
    } else {
      ElsewhereFlows(cfg, j, e, k);
    }
  }

  lemma {:induction false} GateFlows(cfg: Config, j: Job, e: Event)
    requires Placed(j) && j.state == BuildGate && e.GateRun?
    ensures Flows(cfg, j, e, GateStep(cfg, j, GateOf(cfg, j, e.builds)))
  {
    PlainPlace(j);
    GateComesTo(cfg, j.wip, j.work.diagnosis, j.gateFixes, e.builds);
    var g := GateOf(cfg, j, e.builds);
    var k := GateStep(cfg, j, g);
    if g.Green? && j.index + 1 !in j.unread {
      SettledFlows(cfg, j, e, k);
    } else {
      UnsettledLeads(cfg, j, g);
      LeadFlows(cfg, j, e, k);
    }
  }

  lemma {:induction false} UnsettledLeads(cfg: Config, j: Job, g: Gate)
    requires j.state == BuildGate && j.index < |j.phases| && !(g.Green? && j.index + 1 !in j.unread)
    ensures LeadsOn(j, GateStep(cfg, j, g))
  {
  }

  lemma {:induction false} SettledFlows(cfg: Config, j: Job, e: Event, k: Job)
    requires BuiltBy(cfg, j, e) && k.log == j.log + [Built(InTurn(j).uid)] && k.plan == j.plan
    requires k.state == Review || k.state == Qa || (k.state == Developing && k.index < |k.phases|)
    ensures Flows(cfg, j, e, k)
  {
  }

  lemma {:induction false} ReviewFlows(cfg: Config, j: Job, e: Event)
    requires Placed(j) && j.state == Review && e.PhaseReviewed?
    ensures Flows(cfg, j, e, ReviewStep(cfg, j, e.blocking, e.enforced))
  {
    PlainPlace(j);
    var k := ReviewStep(cfg, j, e.blocking, e.enforced);
    if k.state == Developing {
      DevelopsFlows(cfg, j, e, k);
    } else {
      ElsewhereFlows(cfg, j, e, k);
    }
  }

  lemma {:induction false} QaFlows(cfg: Config, j: Job, e: Event)
    requires j.state == Qa && e.TestsTurn?
    ensures Flows(cfg, j, e, QaStep(cfg, j, e.rounds))
  {
    TestsLead(cfg, j, e.rounds);
  }

  lemma {:induction false} DevOpsFlows(cfg: Config, j: Job, e: Event)
    requires j.state == DevOps && e.ShippingTurn?
    ensures Flows(cfg, j, e, ShipStep(cfg, j, e.shipping))
  {
    ShippingLeads(cfg, j, e.shipping);
  }

  lemma {:induction false} ReadingFlows(cfg: Config, j: Job, e: Event)
    requires Placed(j) && j.state == Reconcile && e.PhasesRead?
    ensures Flows(cfg, j, e, ReadStep(j, e.found))
  {
    PlainPlace(j);
    ReadIs(j, e.found);
  }

  lemma {:induction false} NewPlanFlows(cfg: Config, j: Job, e: Event, k: Job)
    requires (e.PlanWritten? || e.PlanEdited?) && k.state == AwaitArchitecture && k.plan != j.plan && k.log == j.log
    ensures Flows(cfg, j, e, k)
  {
  }

  lemma {:induction false} PlanFlows(cfg: Config, j: Job, e: Event)
    requires j.state == Architecture && KeptOf(j) <= |j.phases| && e.PlanWritten?
    ensures Flows(cfg, j, e, PlanStep(cfg, j, e.drafts))
  {
    var k := PlanStep(cfg, j, e.drafts);
    if k.state == Failed {
      StaysFlow(cfg, j, e, k);
    } else {
      NewPlanFlows(cfg, j, e, k);
    }
  }

  lemma {:induction false} HandlerFlows(cfg: Config, j: Job, e: Event, k: Job)
    requires Placed(j) && Ranged(j.phases) && ByHandler(e) && Next(cfg, j, e) == Some(k)
    ensures Flows(cfg, j, e, k)
  {
    match e
    case PlanWritten(_) => PlanFlows(cfg, j, e);
    case PhaseTurn(_, _, _, _) => TurnFlows(cfg, j, e, k);
    case GateRun(_) => GateFlows(cfg, j, e);
    case PhaseReviewed(_, _) => ReviewFlows(cfg, j, e);
    case TestsTurn(_) => QaFlows(cfg, j, e);
    case PhasesRead(_) => ReadingFlows(cfg, j, e);
  }

  lemma {:induction false} OnwardFlows(cfg: Config, j: Job, e: Event, k: Job)
    requires Placed(j) && Onward(e) && Next(cfg, j, e) == Some(k)
    ensures Flows(cfg, j, e, k)
  {
    if e.ShippingTurn? {
      DevOpsFlows(cfg, j, e);
    } else if e.BuilderCame? || e.ScreensAnswered? {
      ResumedFlows(cfg, j, e, k);
    } else if e.TestsSkipped? || e.DeploymentSkipped? {
      SkippedFlows(cfg, j, e, k);
    } else {
      BegunFlows(cfg, j, e, k);
    }
  }

  lemma {:induction false} ResumedFlows(cfg: Config, j: Job, e: Event, k: Job)
    requires Placed(j) && (e.BuilderCame? || e.ScreensAnswered?) && Next(cfg, j, e) == Some(k)
    ensures Flows(cfg, j, e, k)
  {
    PlainPlace(j);
    if k.state == BuildGate {
      ElsewhereFlows(cfg, j, e, k);
    } else {
      DevelopsFlows(cfg, j, e, k);
    }
  }

  lemma {:induction false} SkippedFlows(cfg: Config, j: Job, e: Event, k: Job)
    requires (e.TestsSkipped? || e.DeploymentSkipped?) && Next(cfg, j, e) == Some(k)
    ensures Flows(cfg, j, e, k)
  {
  }

  lemma {:induction false} BegunFlows(cfg: Config, j: Job, e: Event, k: Job)
    requires (e.BacklogWritten? || e.ScreensDrawn? || e.Started?) && Next(cfg, j, e) == Some(k)
    ensures Flows(cfg, j, e, k)
  {
    if e.ScreensDrawn? {
      DrawnFlows(cfg, j, e);
    } else {
      ElsewhereFlows(cfg, j, e, k);
    }
  }

  lemma {:induction false} DrawnFlows(cfg: Config, j: Job, e: Event)
    requires j.state == Design
    ensures Flows(cfg, j, e, j.(state := Developing))
  {
  }

  lemma {:induction false} AsideFlows(cfg: Config, j: Job, e: Event, k: Job)
    requires Placed(j) && Aside(e) && Next(cfg, j, e) == Some(k)
    ensures Flows(cfg, j, e, k)
  {
    match e
    case HandlerFailed | HandlerLooped | PausePressed => HaltFlows(cfg, j, e, k);
    case CarriedOn(brought) => CarriedFlows(cfg, j, e, k);
    case Retried => RetriedFlows(cfg, j, e, k);
    case _ => ElsewhereAgain(cfg, j, e, k);
  }

  lemma {:induction false} HaltFlows(cfg: Config, j: Job, e: Event, k: Job)
    requires Placed(j) && (e.HandlerFailed? || e.HandlerLooped? || e.PausePressed?) && Next(cfg, j, e) == Some(k)
    ensures Flows(cfg, j, e, k)
  {
    StaysFlow(cfg, j, e, k);
  }

  lemma {:induction false} CarriedFlows(cfg: Config, j: Job, e: Event, k: Job)
    requires Placed(j) && e.CarriedOn? && CarryOnStep(j, e.brought) == Some(k)
    ensures Flows(cfg, j, e, k)
  {
    if k.state == Reconcile {
      ElsewhereFlows(cfg, j, e, k);
    } else {
      StaysFlow(cfg, j, e, k);
    }
  }

  lemma {:induction false} RetriedFlows(cfg: Config, j: Job, e: Event, k: Job)
    requires Placed(j) && e.Retried? && RetryStep(j) == Some(k)
    ensures Flows(cfg, j, e, k)
  {
    if j.failedFrom == BuildGate {
      DevelopsFlows(cfg, j, e, k);
    } else {
      StaysFlow(cfg, j, e, k);
    }
  }

  lemma {:induction false} ElsewhereAgain(cfg: Config, j: Job, e: Event, k: Job)
    requires (e.CancelPressed? || e.Redirected? || e.PhaseReplanned? || e.StartedOver?) && Next(cfg, j, e) == Some(k)
    ensures Flows(cfg, j, e, k)
  {
    ElsewhereFlows(cfg, j, e, k);
  }

  lemma {:induction false} ApproveFlows(cfg: Config, j: Job, e: Event, k: Job, drawing: bool, empty: bool)
    requires Placed(j) && ApprovedBy(e) && ApproveStep(j, drawing, empty) == Some(k)
    ensures Flows(cfg, j, e, k)
  {
    match j.state
    case AwaitReconcile => AcceptFlows(cfg, j, e, k, drawing, empty);
    case AwaitDecision => AnsweredFlows(cfg, j, e, k);
    case _ => GateLeftFlows(cfg, j, e, k, drawing, empty);
  }

  lemma {:induction false} AcceptFlows(cfg: Config, j: Job, e: Event, k: Job, drawing: bool, empty: bool)
    requires Placed(j) && j.state == AwaitReconcile && ApprovedBy(e) && ApproveStep(j, drawing, empty) == Some(k)
    ensures Flows(cfg, j, e, k)
  {
    PlainPlace(j);
    AcceptPlaced(j, drawing, empty);
    LeadingRunIs(j.reading.value.done);
    assert AcceptedBy(j, e, k.index);
  }

  lemma {:induction false} AnsweredFlows(cfg: Config, j: Job, e: Event, k: Job)
    requires Placed(j) && j.state == AwaitDecision && k == j.(state := ResumeOf(j), resume := k.resume, rejects := k.rejects, budgetStop := k.budgetStop, work := k.work)
    ensures Flows(cfg, j, e, k)
  {
    StaysFlow(cfg, j, e, k);
  }

  lemma {:induction false} GateLeftFlows(cfg: Config, j: Job, e: Event, k: Job, drawing: bool, empty: bool)
    requires Placed(j) && j.state != AwaitReconcile && j.state != AwaitDecision && ApprovedBy(e) && ApproveStep(j, drawing, empty) == Some(k)
    ensures Flows(cfg, j, e, k)
  {
    PlainPlace(j);
  }

  lemma {:induction false} CountFlows(cfg: Config, j: Job, e: Event, k: Job)
    requires Placed(j) && CountsOne(e) && Next(cfg, j, e) == Some(k)
    ensures Flows(cfg, j, e, k)
  {
    var once := Counted(j);
    CountedPlaced(j, once);
    if e.AutoApproved? && ApproveStep(once, e.drawing, e.empty).Some? {
      ApproveFlows(cfg, once, e, k, e.drawing, e.empty);
      CountedFlows(cfg, j, once, e, k);
    } else {
      StaysFlow(cfg, j, e, k);
    }
  }

  lemma {:induction false} CountedFlows(cfg: Config, j: Job, once: Job, e: Event, k: Job)
    requires once == Counted(j) && Flows(cfg, once, e, k) && e.AutoApproved?
    ensures Flows(cfg, j, e, k)
  {
    if resume: nat :| AcceptedBy(once, e, resume) && k.log == once.log + HandLog(once.phases, once.index, resume) {
      assert AcceptedBy(j, e, resume);
    }
  }

  lemma {:induction false} RejectFlows(cfg: Config, j: Job, e: Event, k: Job)
    requires Placed(j) && RejectStep(j) == Some(k)
    ensures Flows(cfg, j, e, k)
  {
    if j.state == AwaitDecision {
      AnsweredFlows(cfg, j, e, k);
    } else {
      GateRejectedFlows(cfg, j, e, k);
    }
  }

  lemma {:induction false} GateRejectedFlows(cfg: Config, j: Job, e: Event, k: Job)
    requires Placed(j) && j.state != AwaitDecision && RejectStep(j) == Some(k)
    ensures Flows(cfg, j, e, k)
  {
    PlainPlace(j);
  }

  lemma {:induction false} PersonFlows(cfg: Config, j: Job, e: Event, k: Job)
    requires Placed(j) && (e.Approved? || e.PlanEdited? || e.Rejected? || e.Steered?) && Next(cfg, j, e) == Some(k)
    ensures Flows(cfg, j, e, k)
  {
    match e
    case Approved(drawing, empty) => ApproveFlows(cfg, j, e, k, drawing, empty);
    case PlanEdited(_) => NewPlanFlows(cfg, j, e, k);
    case Rejected => RejectFlows(cfg, j, e, k);
    case Steered(_) => StaysFlow(cfg, j, e, k);
  }

  lemma {:induction false} StepFlows(cfg: Config, j: Job, e: Event, k: Job)
    requires Placed(j) && Ranged(j.phases) && Next(cfg, j, e) == Some(k)
    ensures Flows(cfg, j, e, k)
  {
    if ByHandler(e) {
      HandlerFlows(cfg, j, e, k);
    } else if Onward(e) {
      OnwardFlows(cfg, j, e, k);
    } else if Aside(e) {
      AsideFlows(cfg, j, e, k);
    } else if CountsOne(e) {
      CountFlows(cfg, j, e, k);
    } else {
      PersonFlows(cfg, j, e, k);
    }
  }

  // -- whole runs -----------------------------------------------------------------------------

  lemma {:induction false} FlowsAt(cfg: Config, js: seq<Job>, es: seq<Event>, i: nat)
    requires Run(cfg, js, es) && i < |es|
    ensures Flows(cfg, js[i], es[i], js[i + 1])
  {
    RunKeeps(cfg, js, es, i);
    assert StepAt(cfg, js, es, i);
    StepFlows(cfg, js[i], es[i], js[i + 1]);
  }

  /** The tests are left at step `b`, and from then up to `i` it is DevOps' turn. */
  ghost predicate LeftAt(js: seq<Job>, es: seq<Event>, b: nat, i: nat)
  {
    b < i < |js| && b < |es| && LeavesTests(js[b], es[b]) && forall s: nat :: b < s <= i ==> Shipping(js[s])
  }

  lemma {:induction false} TestsLeft(cfg: Config, js: seq<Job>, es: seq<Event>, i: nat) returns (b: nat)
    requires Run(cfg, js, es) && i < |js| && Shipping(js[i])
    ensures LeftAt(js, es, b, i)
    decreases i
  {
    assert i != 0;
    FlowsAt(cfg, js, es, i - 1);
    if Shipping(js[i - 1]) {
      b := TestsLeft(cfg, js, es, i - 1);
    } else {
      b := i - 1;
    }
  }

  /** The tests are written and built green at step `a`, and from then up to `b` they wait for a yes. */
  ghost predicate TestedThere(cfg: Config, js: seq<Job>, es: seq<Event>, a: nat, b: nat)
  {
    && a < b < |js| && a < |es| && ComesToTests(js[a], es[a], js[a + 1]) && Tested(cfg, js[a].work.attempts, es[a].rounds)
    && forall s: nat :: a < s <= b ==> AtTests(js[s])
  }

  lemma {:induction false} TestsBefore(cfg: Config, js: seq<Job>, es: seq<Event>, b: nat)
    requires Run(cfg, js, es) && b < |js| && AtTests(js[b])
    ensures 0 < b <= |es| && (AtTests(js[b - 1]) || ComesToTests(js[b - 1], es[b - 1], js[b]))
  {
    assert b != 0;
    FlowsAt(cfg, js, es, b - 1);
  }

  lemma {:induction false} TestsMade(cfg: Config, js: seq<Job>, es: seq<Event>, b: nat) returns (a: nat)
    requires Run(cfg, js, es) && b < |js| && AtTests(js[b])
    ensures TestedThere(cfg, js, es, a, b)
    decreases b
  {
    TestsBefore(cfg, js, es, b);
    if AtTests(js[b - 1]) {
      a := TestsMade(cfg, js, es, b - 1);
    } else {
      a := b - 1;
      TestsCame(cfg, js, es, a);
    }
  }

  lemma {:induction false} TestsCame(cfg: Config, js: seq<Job>, es: seq<Event>, a: nat)
    requires Run(cfg, js, es) && a < |es| && ComesToTests(js[a], es[a], js[a + 1])
    ensures Tested(cfg, js[a].work.attempts, es[a].rounds)
  {
    Happened(cfg, js, es, a + 1);
    TestsLead(cfg, js[a], es[a].rounds);
  }

  /** The list of the tests was skipped at step `b`, or the tests were written, the whole project
      was built green with them, and they were approved. */
  ghost predicate TestedOrSkipped(cfg: Config, js: seq<Job>, es: seq<Event>, b: nat)
    requires b < |es|
  {
    es[b].TestsSkipped? || (ApprovedBy(es[b]) && exists a: nat :: TestedThere(cfg, js, es, a, b))
  }

  /** Nothing is shipped untested: wherever DevOps has its turn, seen through pauses, questions
      and failures, the tests were left for it before, tested or skipped, and nothing was gone
      back to since. */
  lemma {:induction false} TestedBeforeShipped(cfg: Config, js: seq<Job>, es: seq<Event>, i: nat)
    requires Run(cfg, js, es) && i < |js| && Shipping(js[i])
    ensures exists b: nat :: LeftAt(js, es, b, i) && TestedOrSkipped(cfg, js, es, b)
  {
    var b := TestsLeft(cfg, js, es, i);
    if !es[b].TestsSkipped? {
      var a := TestsMade(cfg, js, es, b);
    }
  }

  /** The plan in force at `i` was made at step `a`. */
  ghost predicate MadeAt(js: seq<Job>, es: seq<Event>, a: nat, i: nat)
  {
    && a < i < |js| && a < |es| && MakesPlan(js[a], es[a], js[a + 1])
    && forall s: nat :: a < s <= i ==> js[s].plan == js[a + 1].plan
  }

  /** Where a plan that leaves a phase to build is developed, or its screens are drawn, there is
      always a phase in turn. */
  lemma {:induction false} TurnIsThere(cfg: Config, js: seq<Job>, es: seq<Event>, a: nat, i: nat)
    requires Run(cfg, js, es) && MadeAt(js, es, a, i) && js[a + 1].index < |js[a + 1].phases|
    ensures Behind(js[i]) == Developing || Behind(js[i]) == Design ==> js[i].index < |js[i].phases|
  {
    NeverNoTurn(cfg, js, es, a, i);
  }

  lemma {:induction false} NeverNoTurn(cfg: Config, js: seq<Job>, es: seq<Event>, a: nat, i: nat)
    requires Run(cfg, js, es) && MadeAt(js, es, a, i) && js[a + 1].index < |js[a + 1].phases|
    ensures !NoTurn(js[i])
    decreases i
  {
    if a + 1 < i {
      NeverNoTurn(cfg, js, es, a, i - 1);
      FlowsAt(cfg, js, es, i - 1);
    }
  }

  /** A reading came at step `r`, and from then up to `a` it waits for a yes. */
  ghost predicate ReadAt(js: seq<Job>, es: seq<Event>, r: nat, a: nat)
  {
    r < a < |js| && r < |es| && ComesToReading(js[r], es[r], js[r + 1]) && SameReading(js[r + 1], js[a])
  }

  lemma {:induction false} StillRead(cfg: Config, js: seq<Job>, es: seq<Event>, a: nat)
    requires Run(cfg, js, es) && a < |js| && Behind(js[a]) == AwaitReconcile
    ensures 0 < a <= |es| && (SameReading(js[a - 1], js[a]) || ComesToReading(js[a - 1], es[a - 1], js[a]))
  {
    assert a != 0;
    FlowsAt(cfg, js, es, a - 1);
  }

  lemma {:induction false} ReadBefore(cfg: Config, js: seq<Job>, es: seq<Event>, a: nat) returns (r: nat)
    requires Run(cfg, js, es) && a < |js| && Behind(js[a]) == AwaitReconcile
    ensures ReadAt(js, es, r, a)
    decreases a
  {
    StillRead(cfg, js, es, a);
    if SameReading(js[a - 1], js[a]) {
      r := ReadBefore(cfg, js, es, a - 1);
    } else {
      r := a - 1;
    }
  }

  /** Step `a` settles phase `u`: a build of its gate passed and nothing about it was unread, or
      a reading that found it done was accepted. */
  ghost predicate SettledBy(cfg: Config, js: seq<Job>, es: seq<Event>, a: nat, s: Settled)
  {
    && a < |es| && a < |js|
    && match s
       case Built(u) => BuiltBy(cfg, js[a], es[a]) && InTurn(js[a]).uid == u
       case ByHand(u) => js[a].state == AwaitReconcile && ApprovedBy(es[a]) && exists r: nat, n: nat :: FoundAt(js, es, r, a, n, u)
  }

  ghost predicate FoundAt(js: seq<Job>, es: seq<Event>, r: nat, a: nat, n: nat, u: nat)
  {
    && ReadAt(js, es, r, a) && js[a].index < n <= |js[a].phases| && At(js[a].phases, n).uid == u
    && forall m: nat :: js[a].index < m <= n ==> FoundDone(es[r].found, m)
  }

  /** Nothing is settled without a cause: over every run, each phase logged as built was in turn
      at a gate one of whose builds passed, and each logged as done by hand was found done, with
      every phase before it that was left, by the reading that was accepted. */
  lemma {:induction false} SettledForCause(cfg: Config, js: seq<Job>, es: seq<Event>, i: nat, k: nat)
    requires Run(cfg, js, es) && i < |js| && k < |js[i].log|
    ensures exists a: nat :: a < i && |js[a].log| <= k < |js[a + 1].log| && SettledBy(cfg, js, es, a, js[i].log[k])
    decreases i
  {
    assert i != 0;
    LogOnlyGrows(cfg, js, es, i - 1, i);
    if k < |js[i - 1].log| {
      SettledForCause(cfg, js, es, i - 1, k);
    } else {
      FlowsAt(cfg, js, es, i - 1);
      LoggedNow(cfg, js, es, i - 1, k);
    }
  }

  lemma {:induction false} LoggedNow(cfg: Config, js: seq<Job>, es: seq<Event>, a: nat, k: nat)
    requires Run(cfg, js, es) && a < |es| && |js[a].log| <= k < |js[a + 1].log| && LogFlows(cfg, js[a], es[a], js[a + 1])
    ensures SettledBy(cfg, js, es, a, js[a + 1].log[k])
  {
    if resume: nat :| AcceptedBy(js[a], es[a], resume) && js[a + 1].log == js[a].log + HandLog(js[a].phases, js[a].index, resume) {
      var r := ReadBefore(cfg, js, es, a);
      HandLogged(cfg, js, es, r, a, resume, js[a].index + 1 + (k - |js[a].log|));
    }
  }

  lemma {:induction false} HandLogged(cfg: Config, js: seq<Job>, es: seq<Event>, r: nat, a: nat, resume: nat, n: nat)
    requires Run(cfg, js, es) && a < |es| && ReadAt(js, es, r, a) && AcceptedBy(js[a], es[a], resume) && js[a].index < n <= resume
    ensures FoundAt(js, es, r, a, n, At(js[a].phases, n).uid)
  {
    ReadSaid(cfg, js, es, r);
    forall m: nat | js[a].index < m <= n ensures FoundDone(es[r].found, m) {
      assert js[a].reading.value.done[m - js[a].index - 1];
    }
  }

  lemma {:induction false} ReadSaid(cfg: Config, js: seq<Job>, es: seq<Event>, r: nat)
    requires Run(cfg, js, es) && r < |es| && ComesToReading(js[r], es[r], js[r + 1])
    ensures Says(js[r + 1], es[r].found)
  {
    Happened(cfg, js, es, r + 1);
    RunKeeps(cfg, js, es, r);
    ReadingSays(cfg, js[r], es[r], js[r + 1]);
  }

  lemma {:induction false} ReadingSays(cfg: Config, j: Job, e: Event, k: Job)
    requires Placed(j) && ComesToReading(j, e, k) && Next(cfg, j, e) == Some(k)
    ensures Says(k, e.found)
  {
    PlainPlace(j);
    ReadHappens(cfg, j, e.found);
    ReadIs(j, e.found);
  }
}
