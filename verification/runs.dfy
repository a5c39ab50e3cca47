/**
 Whole runs: a development from its creation, through any mix of model answers, failures,
 approvals, pauses, edits, steering and plans made again.
 */
module Runs {
  import opened Wrappers
  import opened Plan
  import opened Reordering
  import opened Job
  import opened Safety
  import opened Parking

  ghost predicate StepAt(cfg: Config, js: seq<Job>, es: seq<Event>, i: nat)
    requires |js| == |es| + 1 && i < |es|
  {
    Next(cfg, js[i], es[i]) == Some(js[i + 1]) && Trusted(js[i], es[i])
  }

  /** The development after each of the events `es`. */
  ghost predicate Run(cfg: Config, js: seq<Job>, es: seq<Event>)
  {
    && |js| == |es| + 1 && js[0] == NEW_JOB
    && forall i: nat :: i < |es| ==> StepAt(cfg, js, es, i)
  }

  lemma {:induction false} NewKept(cfg: Config)
    ensures Inv(cfg, NEW_JOB)
  {
  }

  lemma {:induction false} RunKeeps(cfg: Config, js: seq<Job>, es: seq<Event>, i: nat)
    requires Run(cfg, js, es) && i < |js|
    ensures Inv(cfg, js[i])
    ensures i < |es| ==> StepKept(js[i], js[i + 1])
    decreases i
  {
    if i == 0 {
      NewKept(cfg);
    } else {
      RunKeeps(cfg, js, es, i - 1);
      assert StepAt(cfg, js, es, i - 1);
      StepKeeps(cfg, js[i - 1], es[i - 1]);
    }
    if i < |es| {
      assert StepAt(cfg, js, es, i);
      StepKeeps(cfg, js[i], es[i]);
    }
  }

  lemma {:induction false} Stepped(cfg: Config, js: seq<Job>, es: seq<Event>, i: nat)
    requires Run(cfg, js, es) && 0 < i < |js|
    ensures StepKept(js[i - 1], js[i])
  {
    RunKeeps(cfg, js, es, i - 1);
  }

  lemma {:induction false} Happened(cfg: Config, js: seq<Job>, es: seq<Event>, i: nat)
    requires Run(cfg, js, es) && 0 < i < |js|
    ensures Next(cfg, js[i - 1], es[i - 1]) == Some(js[i])
  {
    assert StepAt(cfg, js, es, i - 1);
  }

  // -- order ----------------------------------------------------------------------------

  /** Where phase `u` was first settled. */
  ghost predicate SettledAt(log: seq<Settled>, k: nat, u: nat)
  {
    k < |log| && UidOf(log[k]) == u
  }

  /** Whatever is settled is settled after everything the approved plan says it needs, and stays settled. */
  lemma {:induction false} SettledInOrder(cfg: Config, js: seq<Job>, es: seq<Event>, i: nat, k: nat, u: nat, d: nat)
    requires Run(cfg, js, es) && i < |js| && SettledAt(js[i].log, k, u)
    ensures u in js[i].want
    ensures d in js[i].want[u] ==> exists h: nat :: h < k && SettledAt(js[i].log, h, d)
  {
    RunKeeps(cfg, js, es, i);
    var log := js[i].log;
    if d in js[i].want[u] {
      assert d in Uids(log[..k]);
      var h: nat :| h < k && UidOf(log[..k][h]) == d;
      assert SettledAt(log, h, d);
    }
  }

  lemma {:induction false} LogOnlyGrows(cfg: Config, js: seq<Job>, es: seq<Event>, i: nat, l: nat)
    requires Run(cfg, js, es) && i <= l < |js|
    ensures js[i].log <= js[l].log
    decreases l
  {
    if i < l {
      LogOnlyGrows(cfg, js, es, i, l - 1);
      Stepped(cfg, js, es, l);
    }
  }

  /** Nothing is skipped: wherever a run stands, the phases behind it are settled, and from
      QA on that is all of them. */
  lemma {:induction false} NothingSkipped(cfg: Config, js: seq<Job>, es: seq<Event>, i: nat, n: nat)
    requires Run(cfg, js, es) && i < |js|
    ensures js[i].index <= |js[i].phases|
    ensures AllBuiltState(Behind(js[i])) ==> js[i].index == |js[i].phases|
    ensures 1 <= n <= js[i].index ==> exists k: nat :: SettledAt(js[i].log, k, At(js[i].phases, n).uid)
  {
    RunKeeps(cfg, js, es, i);
    if 1 <= n <= js[i].index {
      var u := At(js[i].phases, n).uid;
      assert u in Uids(js[i].log);
      var k: nat :| k < |js[i].log| && UidOf(js[i].log[k]) == u;
      assert SettledAt(js[i].log, k, u);
    }
  }

  // -- approvals ------------------------------------------------------------------------

  /** Step `a` of a run approves the plan that `j` has: the same phases, wanting the same. */
  ghost predicate Approves(js: seq<Job>, es: seq<Event>, a: nat, j: Job)
  {
    && a < |es| && a < |js| && js[a].state == AwaitArchitecture && (es[a].Approved? || es[a].AutoApproved?)
    && js[a].plan == j.plan && AllOf(js[a].phases) == AllOf(j.phases) && js[a].want == j.want
  }

  lemma {:induction false} OnlyApproving(cfg: Config, j: Job, e: Event)
    requires j.state == AwaitArchitecture && Next(cfg, j, e).Some? && Next(cfg, j, e).value.approved != j.approved
    ensures e.Approved? || e.AutoApproved?
  {
  }

  lemma {:induction false} ApprovesNow(cfg: Config, js: seq<Job>, es: seq<Event>, i: nat)
    requires 0 < i < |js| == |es| + 1 && Next(cfg, js[i - 1], es[i - 1]) == Some(js[i]) && StepKept(js[i - 1], js[i])
    requires js[i].approved != js[i - 1].approved
    ensures exists a: nat :: a < i && Approves(js, es, a, js[i])
  {
    OnlyApproving(cfg, js[i - 1], es[i - 1]);
    assert Approves(js, es, i - 1, js[i]);
  }

  lemma {:induction false} StillApproved(js: seq<Job>, es: seq<Event>, i: nat, j: Job, k: Job)
    requires StepKept(j, k) && k.plan == j.plan && 0 < i && exists a: nat :: a < i - 1 && Approves(js, es, a, j)
    ensures exists a: nat :: a < i && Approves(js, es, a, k)
  {
    var a: nat :| a < i - 1 && Approves(js, es, a, j);
    assert Approves(js, es, a, k);
  }

  lemma {:induction false} ApprovedBefore(cfg: Config, js: seq<Job>, es: seq<Event>, i: nat)
    requires Run(cfg, js, es) && i < |js|
    ensures js[i].approved <= js[i].plan
    ensures 0 < js[i].plan == js[i].approved ==> exists a: nat :: a < i && Approves(js, es, a, js[i])
    decreases i
  {
    if i == 0 {
      assert js[0].plan == 0;
    } else {
      ApprovedBefore(cfg, js, es, i - 1);
      Stepped(cfg, js, es, i);
      Happened(cfg, js, es, i);
      ApprovedThen(cfg, js, es, i, js[i - 1], js[i]);
    }
  }

  lemma {:induction false} ApprovedThen(cfg: Config, js: seq<Job>, es: seq<Event>, i: nat, j: Job, k: Job)
    requires 0 < i < |js| == |es| + 1 && j == js[i - 1] && k == js[i] && Next(cfg, j, es[i - 1]) == Some(k) && StepKept(j, k)
    requires j.approved <= j.plan
    requires 0 < j.plan == j.approved ==> exists a: nat :: a < i - 1 && Approves(js, es, a, j)
    ensures k.approved <= k.plan
    ensures 0 < k.plan == k.approved ==> exists a: nat :: a < i && Approves(js, es, a, k)
  {
    if 0 < k.plan == k.approved {
      ApprovedNext(cfg, js, es, i, j, k);
    }
  }

  lemma {:induction false} ApprovedNext(cfg: Config, js: seq<Job>, es: seq<Event>, i: nat, j: Job, k: Job)
    requires 0 < i < |js| == |es| + 1 && j == js[i - 1] && k == js[i] && Next(cfg, j, es[i - 1]) == Some(k) && StepKept(j, k)
    requires 0 < k.plan == k.approved && j.approved <= j.plan
    requires 0 < j.plan == j.approved ==> exists a: nat :: a < i - 1 && Approves(js, es, a, j)
    ensures exists a: nat :: a < i && Approves(js, es, a, k)
  {
    if k.approved != j.approved {
      ApprovesNow(cfg, js, es, i);
    } else {
      StillApproved(js, es, i, j, k);
    }
  }

  /** Nothing is built of a plan nobody approved: every state between the approved plan and
      the end, seen through pauses, questions and failures, and every phase settled, comes
      after an approval of that very plan. */
  lemma {:induction false} BuiltOnlyApproved(cfg: Config, js: seq<Job>, es: seq<Event>, i: nat)
    requires Run(cfg, js, es) && i < |js|
    requires PlannedState(Behind(js[i])) || (0 < i && js[i - 1].log != js[i].log)
    ensures exists a: nat :: a < i && Approves(js, es, a, js[i])
  {
    RunKeeps(cfg, js, es, i);
    if PlannedState(Behind(js[i])) {
      PlannedApproved(js[i]);
      ApprovedBefore(cfg, js, es, i);
    } else {
      RunKeeps(cfg, js, es, i - 1);
      ApprovedBefore(cfg, js, es, i - 1);
      StillApproved(js, es, i, js[i - 1], js[i]);
    }
  }

  lemma {:induction false} PlannedApproved(j: Job)
    requires PlaceKept(j) && PlannedState(Behind(j))
    ensures PlanApproved(j)
  {
  }

  /** The supervisor approves at step `i`, and it goes through. */
  ghost predicate AutoMade(js: seq<Job>, es: seq<Event>, i: nat)
    requires i < |es| && i < |js|
  {
    es[i].AutoApproved? && ApproveStep(Counted(js[i]), es[i].drawing, es[i].empty).Some?
  }

  ghost function AutoCount(js: seq<Job>, es: seq<Event>): nat
    requires |es| <= |js|
  {
    if es == [] then 0 else AutoCount(js, es[..|es| - 1]) + if AutoMade(js, es, |es| - 1) then 1 else 0
  }

  lemma {:induction false} AutoCounted(cfg: Config, js: seq<Job>, es: seq<Event>, n: nat)
    requires Run(cfg, js, es) && n <= |es|
    ensures AutoCount(js, es[..n]) <= js[n].autoApprovals
  {
    if n != 0 {
      AutoCounted(cfg, js, es, n - 1);
      assert es[..n][..n - 1] == es[..n - 1];
      StepCounts(cfg, js, es, n - 1);
    }
  }

  /** However long a run goes on, no more than `cap` of its approvals are the supervisor's:
      each was counted first, even one that was then refused. */
  lemma {:induction false} AutoBounded(cfg: Config, js: seq<Job>, es: seq<Event>)
    requires Run(cfg, js, es)
    ensures AutoCount(js, es) <= js[|es|].autoApprovals <= cfg.cap
  {
    RunKeeps(cfg, js, es, |es|);
    AutoCounted(cfg, js, es, |es|);
    assert es[..|es|] == es;
  }

  lemma {:induction false} StepCounts(cfg: Config, js: seq<Job>, es: seq<Event>, i: nat)
    requires Run(cfg, js, es) && i < |es|
    ensures js[i].autoApprovals + (if AutoMade(js, es, i) then 1 else 0) <= js[i + 1].autoApprovals
  {
    assert StepAt(cfg, js, es, i);
    RunKeeps(cfg, js, es, i);
    StepKeeps(cfg, js[i], es[i]);
  }

  // -- records of phases set aside ------------------------------------------------------

  /** A step that is not the phase's own turn, and neither replaces the plan nor moves phases past it. */
  ghost predicate Spared(j: Job, e: Event, u: nat)
  {
    && !e.PlanWritten? && !e.PlanEdited?
    && (e.PhaseTurn? ==> StaysPut(j, e.here, u) && (j.index < |j.phases| ==> InTurn(j).uid != u))
  }

  /** Parked work is conserved: through any number of steps and later parks, the record of a
      phase set aside stays with it as it was, until its turn comes or it is settled. */
  lemma {:induction false} RecordConserved(cfg: Config, js: seq<Job>, es: seq<Event>, i: nat, l: nat, u: nat, h: Held)
    requires cfg.filing.ByPhase? && Run(cfg, js, es) && i <= l < |js|
    requires Holds(js[i], u, h) && u !in Uids(js[l].log)
    requires forall s: nat :: i <= s < l ==> Spared(js[s], es[s], u)
    ensures Holds(js[l], u, h)
    decreases l
  {
    if i < l {
      RunKeeps(cfg, js, es, l - 1);
      LogOnlyGrows(cfg, js, es, l - 1, l);
      StillUnsettled(js[l - 1].log, js[l].log, u);
      RecordConserved(cfg, js, es, i, l - 1, u, h);
      assert StepAt(cfg, js, es, l - 1) && Spared(js[l - 1], es[l - 1], u);
      RecordStays(cfg, js[l - 1], es[l - 1], u, h);
    }
  }

  lemma {:induction false} StillUnsettled(log: seq<Settled>, more: seq<Settled>, u: nat)
    requires log <= more && u !in Uids(more)
    ensures u !in Uids(log)
  {
    forall k: nat | k < |log| ensures UidOf(log[k]) != u {
      assert more[k] == log[k];
      assert UidOf(more[k]) in Uids(more);
    }
  }
}
