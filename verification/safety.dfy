/**
 What every run of the engine keeps, whatever the models answer, whatever fails and
 whatever people press in between.
 */
module Safety {
  import opened Wrappers
  import opened Plan
  import opened Reordering
  import opened Job

  function UidOf(s: Settled): nat
  {
    s.uid
  }

  ghost function Uids(log: seq<Settled>): set<nat>
  {
    set k: nat | k < |log| :: UidOf(log[k])
  }

  /** Phases were settled in an order that respects what each of them needs. */
  ghost predicate LinearExtension(log: seq<Settled>, want: Wants)
  {
    forall k: nat :: k < |log| ==> UidOf(log[k]) in want && want[UidOf(log[k])] <= Uids(log[..k])
  }

  /** The first `k` phases are settled: built green, or accepted as finished by hand. */
  ghost predicate SettledUpTo(j: Job, k: nat)
  {
    k <= |j.phases| && forall n: nat :: 1 <= n <= k ==> At(j.phases, n).uid in Uids(j.log)
  }

  /** The state a development is really in, seen through a pause, a decision or a failure. */
  function Behind(j: Job): State
  {
    match j.state
    case Paused => if j.pause.Some? then BackOf(j) else Paused
    case AwaitDecision => ResumeOf(j)
    case Failed => j.failedFrom
    case _ => j.state
  }

  ghost predicate PlanKept(j: Job)
  {
    && Backward(j.phases) && Distinct(j.phases, j.nextObj) && Faithful(j.phases, j.want) && InOrder(j.phases, j.want)
    && (forall n: nat :: 1 <= n <= |j.phases| ==> At(j.phases, n).uid < j.nextUid)
    && (forall u :: u in j.want ==> u < j.nextUid)
  }

  ghost predicate ProgressKept(j: Job)
  {
    && SettledUpTo(j, j.index)
    && (j.replanFrom.Some? ==> SettledUpTo(j, j.replanFrom.value))
    && LinearExtension(j.log, j.want)
  }

  ghost predicate ReadingFits(j: Job)
  {
    j.reading.Some? && j.reading.value.start == j.index && j.index + |j.reading.value.done| == |j.phases|
  }

  predicate PlanApproved(j: Job)
  {
    0 < j.plan && j.approved == j.plan && j.replanFrom.None?
  }

  /** What holds of a development that is in state `s`, or will come back to it. */
  ghost predicate PlaceAt(j: Job, s: State)
  {
    match s
    case AwaitArchitecture => 0 < j.plan
    case Design | Developing => PlanApproved(j)
    case BuildGate | AwaitDesign | AwaitBuilder => PlanApproved(j) && j.index < |j.phases|
    case Review | AwaitReview => PlanApproved(j) && 0 < j.index
    case Reconcile => PlanApproved(j) && j.pause.Some? && j.pause.value.index == j.index
    case AwaitReconcile => PlanApproved(j) && j.pause.Some? && j.pause.value.index == j.index && ReadingFits(j)
    case Qa | AwaitTest | DevOps | AwaitDeploy | Done => PlanApproved(j) && j.index == |j.phases|
    case _ => true
  }

  ghost predicate PlaceKept(j: Job)
  {
    PlaceAt(j, Behind(j)) && (j.builderResume == Developing || j.builderResume == BuildGate)
  }

  /** What a wait or a failure remembers leads back somewhere. */
  ghost predicate WayBackKept(j: Job)
  {
    && (j.state == AwaitDecision ==> j.resume.Some? && Working(j.resume.value))
    && (j.state == Paused ==>
          && j.pause.Some? && Pausable(j.pause.value.from) && j.pause.value.index == j.index
          && (j.pause.value.from == AwaitDecision ==> j.resume.Some? && Working(j.resume.value)))
    && (j.state == Failed ==> Working(j.failedFrom))
  }

  ghost predicate Inv(cfg: Config, j: Job)
  {
    PlanKept(j) && ProgressKept(j) && PlaceKept(j) && WayBackKept(j) && j.autoApprovals <= cfg.cap
  }

  /** The phase in turn cannot be built here, and others are moved ahead of it. */
  ghost predicate SetsLast(j: Job, here: set<Platform>)
  {
    && j.state == Developing && PlanKept(j) && j.index < |j.phases| && j.index + 1 !in j.parked
    && !BuildableHere(InTurn(j), here) && WouldMove(j, here)
  }

  /** What the engine trusts others with: the Architect lets nothing buildable here need a
      phase that is not, and a person who edits a plan made again leaves the built phases as they are. */
  ghost predicate Trusted(j: Job, e: Event)
  {
    match e
    case PhaseTurn(here, _, _, _) =>
      SetsLast(j, here) ==> PlatformsLast(j.phases, j.index, here, j.want)
    case PlanEdited(edited) => KeptRun(j, KeptOf(j), edited) == KeptOf(j)
    case _ => true
  }

  /** The step makes a plan anew: the Architect's, or a person's edit of it. */
  ghost predicate MakesPlan(j: Job, e: Event, k: Job)
  {
    (e.PlanWritten? || e.PlanEdited?) && k.plan != j.plan
  }

  // -- new plans ------------------------------------------------------------------------

  lemma {:induction false} HolderOf(ps: seq<Phase>, nextObj: nat, n: nat)
    requires Distinct(ps, nextObj) && 1 <= n <= |ps|
    ensures Holder(ps, At(ps, n).uid) == n
  {
    var h := Holder(ps, At(ps, n).uid);
    SamePhase(ps, nextObj, h, n);
  }

  lemma {:induction false} ComposeUids(j: Job, kept: nat, drafts: seq<Draft>, n: nat)
    requires PlanKept(j) && 1 <= n <= |drafts|
    ensures var p := At(Compose(j, kept, drafts), n);
      && p.obj == j.nextObj + n - 1 && p.uid < j.nextUid + |drafts|
      && (n <= KeptRun(j, kept, drafts) ==> p == At(j.phases, n).(obj := p.obj) && p.uid < j.nextUid)
      && (KeptRun(j, kept, drafts) < n ==> p.uid == j.nextUid + n - 1)
  {
    if n <= KeptRun(j, kept, drafts) {
      assert At(j.phases, n).uid < j.nextUid;
    }
  }

  lemma {:induction false} ComposeDistinct(j: Job, kept: nat, drafts: seq<Draft>)
    requires PlanKept(j)
    ensures Distinct(Compose(j, kept, drafts), j.nextObj + |drafts|)
  {
    var ps := Compose(j, kept, drafts);
    forall a: nat | 1 <= a <= |ps| ensures At(ps, a).obj == j.nextObj + a - 1 {
      ComposeUids(j, kept, drafts, a);
    }
    forall a: nat, b: nat | 1 <= a < b <= |ps| ensures At(ps, a).uid != At(ps, b).uid {
      ComposeUids(j, kept, drafts, a);
      ComposeUids(j, kept, drafts, b);
      if b <= KeptRun(j, kept, drafts) {
        assert At(j.phases, a).uid != At(j.phases, b).uid;
      }
    }
  }

  lemma {:induction false} WantsLookup(j: Job, ps: seq<Phase>, nextObj: nat, n: nat)
    requires Distinct(ps, nextObj) && 1 <= n <= |ps|
    ensures At(ps, n).uid in ComposeWants(j, ps)
    ensures ComposeWants(j, ps)[At(ps, n).uid] == if At(ps, n).uid in j.want then j.want[At(ps, n).uid] else WantsOf(ps, n)
  {
    HolderOf(ps, nextObj, n);
    if At(ps, n).uid !in j.want {
      assert n in UpTo(|ps|);
      assert At(ps, n).uid in (set k | k in UpTo(|ps|) && At(ps, k).uid !in j.want :: At(ps, k).uid);
    }
  }

  lemma {:induction false} KeptIsWanted(j: Job, kept: nat, drafts: seq<Draft>, n: nat)
    requires PlanKept(j) && 1 <= n <= |drafts|
    ensures At(Compose(j, kept, drafts), n).uid in j.want <==> n <= KeptRun(j, kept, drafts)
  {
    ComposeUids(j, kept, drafts, n);
    if n <= KeptRun(j, kept, drafts) {
      assert At(j.phases, n).uid in j.want;
    }
  }

  lemma {:induction false} ComposeOrdered(j: Job, kept: nat, drafts: seq<Draft>, n: nat)
    requires PlanKept(j) && Backward(Compose(j, kept, drafts)) && 1 <= n <= |drafts|
    ensures var ps := Compose(j, kept, drafts); var want := ComposeWants(j, ps); var u := At(ps, n).uid;
      u in want && want[u] <= Before(ps, n) && (At(ps, n).needs.Some? ==> NamedBy(ps, n) == want[u])
  {
    var ps, run := Compose(j, kept, drafts), KeptRun(j, kept, drafts);
    ComposeDistinct(j, kept, drafts);
    KeptIsWanted(j, kept, drafts, n);
    WantsLookup(j, ps, j.nextObj + |drafts|, n);
    if n <= run {
      ComposeUids(j, kept, drafts, n);
      forall k: nat | 1 <= k <= run ensures At(ps, k).uid == At(j.phases, k).uid && At(ps, k).needs == At(j.phases, k).needs {
        ComposeUids(j, kept, drafts, k);
      }
      SamePrefix(ps, j.phases, run, n);
    } else {
      NamedBefore(ps, n);
    }
  }

  lemma {:induction false} NamedBefore(ps: seq<Phase>, n: nat)
    requires Backward(ps) && 1 <= n <= |ps|
    ensures NamedBy(ps, n) <= Before(ps, n)
  {
    forall u | u in NamedBy(ps, n) ensures u in Before(ps, n) {
      var d :| d in At(ps, n).needs.value && 1 <= d <= |ps| && At(ps, d).uid == u;
      assert States(ps, n, d);
    }
  }

  lemma {:induction false} SamePrefix(ps: seq<Phase>, qs: seq<Phase>, run: nat, n: nat)
    requires Backward(ps) && run <= |ps| && run <= |qs| && 1 <= n <= run
    requires forall k: nat :: 1 <= k <= run ==> At(ps, k).uid == At(qs, k).uid && At(ps, k).needs == At(qs, k).needs
    ensures Before(ps, n) == Before(qs, n) && NamedBy(ps, n) == NamedBy(qs, n)
  {
    if At(ps, n).needs.Some? {
      forall d | d in At(ps, n).needs.value ensures 1 <= d < n {
        assert States(ps, n, d);
      }
    }
  }

  /** A new plan is as good as the one it takes the place of, and wants of no older phase anything else. */
  lemma {:induction false} ComposeKeeps(j: Job, kept: nat, drafts: seq<Draft>)
    requires PlanKept(j) && Backward(Compose(j, kept, drafts))
    ensures PlanKept(NewPlan(j, kept, drafts))
    ensures WantKept(j, NewPlan(j, kept, drafts))
  {
    ComposeDistinct(j, kept, drafts);
    var ps := Compose(j, kept, drafts);
    forall n: nat | 1 <= n <= |ps|
      ensures var want := ComposeWants(j, ps); var u := At(ps, n).uid;
        u < j.nextUid + |ps| && u in want && want[u] <= Before(ps, n) && (At(ps, n).needs.Some? ==> NamedBy(ps, n) == want[u])
    {
      ComposeUids(j, kept, drafts, n);
      ComposeOrdered(j, kept, drafts, n);
    }
  }

  ghost predicate WantKept(j: Job, k: Job)
  {
    forall u :: u in j.want ==> u in k.want && k.want[u] == j.want[u]
  }

  // -- moving phases --------------------------------------------------------------------

  /** All the phases of a plan, wherever they stand. */
  ghost function AllOf(ps: seq<Phase>): set<nat>
  {
    Before(ps, |ps| + 1)
  }

  lemma {:induction false} MoveKeepsAll(ps: seq<Phase>, m: seq<nat>, nextObj: nat)
    requires Permutes(m, |ps|) && Ranged(ps)
    ensures AllOf(Reordered(ps, m, nextObj)) == AllOf(ps)
  {
    var qs := Reordered(ps, m, nextObj);
    forall u | u in AllOf(ps) ensures u in AllOf(qs) {
      var n: nat :| 1 <= n <= |ps| && At(ps, n).uid == u;
      ReorderKeepsPhase(ps, m, nextObj, n);
      assert At(qs, Place(m, n)).uid == u;
    }
    forall u | u in AllOf(qs) ensures u in AllOf(ps) {
      var k: nat :| 1 <= k <= |qs| && At(qs, k).uid == u;
      ReorderKeepsPhase(ps, m, nextObj, Was(m, |ps|, k));
      assert At(ps, Was(m, |ps|, k)).uid == u;
    }
  }

  /** A step that keeps the phases, or only changes their places behind the settled ones. */
  ghost predicate OnlyMoved(j: Job, k: Job)
  {
    && AllOf(k.phases) == AllOf(j.phases) && |k.phases| == |j.phases| && k.want == j.want
    && k.plan == j.plan && k.approved == j.approved && k.autoApprovals == j.autoApprovals
    && k.log == j.log && k.index == j.index && k.nextUid == j.nextUid && k.replanFrom == j.replanFrom
  }

  lemma {:induction false} MoveKeepsProgress(j: Job, later: set<nat>)
    requires PlanKept(j) && ProgressKept(j) && j.replanFrom.None?
    requires Permutes(MoveOf(j, later), |j.phases|)
    requires Kept(j.phases, Reordered(j.phases, MoveOf(j, later), j.nextObj), j.index, j.nextObj, j.want)
    ensures PlanKept(MovePhases(j, later)) && ProgressKept(MovePhases(j, later)) && OnlyMoved(j, MovePhases(j, later))
  {
    var k := MovePhases(j, later);
    MoveKeepsAll(j.phases, MoveOf(j, later), j.nextObj);
    forall n: nat | 1 <= n <= |k.phases| ensures At(k.phases, n).uid < k.nextUid {
      assert At(k.phases, n).uid in AllOf(k.phases);
    }
  }

  lemma {:induction false} ParkOnlyFiles(filing: Filing, j: Job, why: string)
    requires j.index < |j.phases|
    ensures var k := ParkStep(filing, j, why);
      k == MovePhases(j, Needing(j.phases, j.index + 1)).(parked := k.parked, work := NO_WORK, wip := "", state := Developing)
  {
  }

  /** Where the records are filed has no part in what a plan is. */
  lemma {:induction false} FilingAside(j: Job, k: Job)
    requires PlanKept(j) && ProgressKept(j)
    requires k == j.(parked := k.parked, work := k.work, wip := k.wip, state := k.state)
    ensures PlanKept(k) && ProgressKept(k) && OnlyMoved(j, k)
  {
  }

  lemma {:induction false} ParkKeeps(filing: Filing, j: Job, why: string)
    requires PlanKept(j) && ProgressKept(j) && j.replanFrom.None? && j.index < |j.phases|
    ensures PlanKept(ParkStep(filing, j, why)) && ProgressKept(ParkStep(filing, j, why)) && OnlyMoved(j, ParkStep(filing, j, why))
  {
    ParkKeepsOrder(j.phases, j.index, j.nextObj, j.want);
    MoveKeepsProgress(j, Needing(j.phases, j.index + 1));
    ParkOnlyFiles(filing, j, why);
    FilingAside(MovePhases(j, Needing(j.phases, j.index + 1)), ParkStep(filing, j, why));
  }

  lemma {:induction false} SetLastKeeps(j: Job, here: set<Platform>)
    requires PlanKept(j) && ProgressKept(j) && j.replanFrom.None?
    requires WouldMove(j, here) ==> PlatformsLast(j.phases, j.index, here, j.want)
    ensures PlanKept(UnbuildableLast(j, here)) && ProgressKept(UnbuildableLast(j, here)) && OnlyMoved(j, UnbuildableLast(j, here))
  {
    if WouldMove(j, here) {
      UnbuildableLastKeepsOrder(j.phases, j.index, here, j.nextObj, j.want);
      MoveKeepsProgress(j, Unbuildable(j.phases, j.index, here));
    }
  }

  // -- the steps ------------------------------------------------------------------------

  /** Only the place in the plan, its counters and the state change. */
  ghost predicate SamePlan(j: Job, k: Job)
  {
    && k.phases == j.phases && k.want == j.want && k.nextObj == j.nextObj && k.nextUid == j.nextUid
    && k.plan == j.plan
  }

  lemma {:induction false} StillKept(j: Job, k: Job)
    requires PlanKept(j) && ProgressKept(j) && SamePlan(j, k) && k.log == j.log && k.index <= j.index
    requires k.replanFrom == None || k.replanFrom == j.replanFrom || k.replanFrom == Some(k.index)
    ensures PlanKept(k) && ProgressKept(k)
  {
  }

  lemma {:induction false} AnswerKeeps(cfg: Config, j: Job, answer: Answer)
    requires Inv(cfg, j) && j.state == Developing && j.index < |j.phases|
    ensures var k := AnswerStep(cfg.filing, j, answer); Inv(cfg, k) && OnlyMoved(j, k) && LegalStep(j, k)
  {
    var k := AnswerStep(cfg.filing, j, answer);
    if answer.Spent? && SomeFree(j) {
      ParkKeeps(cfg.filing, j, answer.why);
      assert PlaceKept(k) && WayBackKept(k);
    } else {
      StillKept(j, k);
      assert PlaceKept(k) && WayBackKept(k);
    }
  }

  lemma {:induction false} MovedPlaced(j: Job, l: Job)
    requires j.state == Developing && j.index <= |j.phases| && PlaceKept(j)
    requires l == j.(phases := l.phases, nextObj := l.nextObj) && |l.phases| == |j.phases|
    ensures PlaceKept(l) && WayBackKept(l)
  {
    assert PlaceAt(l, Developing) <==> PlaceAt(j, Developing);
  }

  lemma {:induction false} ReadyKeeps(cfg: Config, j: Job, here: set<Platform>)
    requires Inv(cfg, j) && j.state == Developing && j.index < |j.phases| && j.index + 1 !in j.parked
    requires SetsLast(j, here) ==> PlatformsLast(j.phases, j.index, here, j.want)
    ensures Inv(cfg, Ready(j, here)) && OnlyMoved(j, Ready(j, here)) && Ready(j, here).state == Developing
  {
    if !BuildableHere(InTurn(j), here) {
      LastKeeps(cfg, j, here);
    }
  }

  lemma {:induction false} LastKeeps(cfg: Config, j: Job, here: set<Platform>)
    requires Inv(cfg, j) && j.index < |j.phases| && (WouldMove(j, here) ==> PlatformsLast(j.phases, j.index, here, j.want))
    requires j.state == Developing
    ensures Inv(cfg, UnbuildableLast(j, here)) && OnlyMoved(j, UnbuildableLast(j, here)) && UnbuildableLast(j, here).state == Developing
  {
    SetLastKeeps(j, here);
    MovedPlaced(j, UnbuildableLast(j, here));
  }

  lemma {:induction false} TurnKeeps(cfg: Config, j: Job, here: set<Platform>, screens: bool, answer: Answer)
    requires Inv(cfg, j) && j.state == Developing && j.index < |j.phases|
    ensures var k := TurnStep(cfg.filing, j, here, screens, answer); Inv(cfg, k) && OnlyMoved(j, k) && LegalStep(j, k)
  {
    var k := TurnStep(cfg.filing, j, here, screens, answer);
    if !BuildableHere(InTurn(j), here) || screens {
      StillKept(j, k);
      assert PlaceKept(k) && WayBackKept(k);
    } else {
      AnswerKeeps(cfg, j, answer);
    }
  }

  lemma {:induction false} StoppedKeeps(cfg: Config, j: Job, here: set<Platform>, screens: bool, fits: bool, answer: Answer)
    requires Inv(cfg, j) && j.state == Developing && (|j.phases| <= j.index || j.index + 1 in j.parked)
    ensures var k := DevelopStep(cfg.filing, j, here, screens, fits, answer); Inv(cfg, k) && Uncounted(j, k)
  {
    var k := DevelopStep(cfg.filing, j, here, screens, fits, answer);
    StillKept(j, k);
    assert PlaceKept(k) && WayBackKept(k);
  }

  lemma {:induction false} DevelopKeeps(cfg: Config, j: Job, here: set<Platform>, screens: bool, fits: bool, answer: Answer)
    requires Inv(cfg, j) && j.state == Developing
    requires SetsLast(j, here) ==> PlatformsLast(j.phases, j.index, here, j.want)
    ensures var k := DevelopStep(cfg.filing, j, here, screens, fits, answer); Inv(cfg, k) && Uncounted(j, k)
  {
    if |j.phases| <= j.index || j.index + 1 in j.parked {
      StoppedKeeps(cfg, j, here, screens, fits, answer);
    } else {
      ReadyKeeps(cfg, j, here);
      TurnKeeps(cfg, Ready(j, here), here, screens, answer);
    }
  }

  /** The orchestrator lets the step through. */
  predicate LegalStep(j: Job, k: Job)
  {
    j.state == k.state || Legal(j.state, k.state)
  }

  lemma {:induction false} GreenKeeps(j: Job)
    requires PlanKept(j) && ProgressKept(j) && j.index < |j.phases|
    ensures LinearExtension(j.log + [Built(InTurn(j).uid)], j.want)
    ensures Uids(j.log + [Built(InTurn(j).uid)]) == Uids(j.log) + {InTurn(j).uid}
  {
    LogGrows(j.log, [Built(InTurn(j).uid)]);
    var log := j.log + [Built(InTurn(j).uid)];
    assert log[..|j.log|] == j.log;
    forall k: nat | k < |j.log| ensures log[..k] == j.log[..k] {
    }
    forall u | u in Before(j.phases, j.index + 1) ensures u in Uids(j.log) {
      var n: nat :| 1 <= n < j.index + 1 && At(j.phases, n).uid == u;
    }
  }

  lemma {:induction false} LogGrows(log: seq<Settled>, more: seq<Settled>)
    ensures Uids(log + more) == Uids(log) + Uids(more)
  {
    forall k: nat | k < |log| ensures UidOf(log[k]) in Uids(log + more) {
      assert (log + more)[k] == log[k];
    }
    forall k: nat | k < |more| ensures UidOf(more[k]) in Uids(log + more) {
      assert (log + more)[|log| + k] == more[k];
    }
  }

  /** What every step keeps, besides the invariant: the log only grows, and only under an
      approved plan; a plan keeps its phases and what they need; only its gate approves it. */
  ghost predicate StepKept(j: Job, k: Job)
  {
    && LegalStep(j, k)
    && j.log <= k.log
    && (j.log != k.log ==> 0 < j.plan == j.approved == k.plan)
    && (k.plan == j.plan ==> AllOf(k.phases) == AllOf(j.phases) && k.want == j.want)
    && j.plan <= k.plan
    && (k.approved == j.approved || (j.state == AwaitArchitecture && k.plan == j.plan == k.approved))
  }

  /** Everything the invariant says of the state and the counters alone. */
  ghost predicate Placed(j: Job)
  {
    j.index <= |j.phases| && PlaceKept(j) && WayBackKept(j)
  }

  /** A step that settles nothing and moves nothing forward. */
  ghost predicate Still(j: Job, k: Job)
  {
    && k.phases == j.phases && k.parked == j.parked && k.want == j.want && k.nextObj == j.nextObj && k.nextUid == j.nextUid
    && k.plan == j.plan && k.log == j.log && k.index <= j.index
    && (k.replanFrom == None || k.replanFrom == j.replanFrom || k.replanFrom == Some(k.index))
    && LegalStep(j, k)
    && (k.approved == j.approved || (j.state == AwaitArchitecture && k.approved == k.plan))
  }

  /** A step of the run loop or a person's: only the supervisor's approvals are counted. */
  ghost predicate Uncounted(j: Job, k: Job)
  {
    StepKept(j, k) && k.autoApprovals == j.autoApprovals
  }

  lemma {:induction false} StillKeeps(cfg: Config, j: Job, k: Job)
    requires Inv(cfg, j) && Still(j, k) && Placed(k) && k.autoApprovals <= cfg.cap
    ensures Inv(cfg, k) && StepKept(j, k)
  {
    StillKept(j, k);
  }

  /** States that are what they look like. */
  predicate Plain(s: State)
  {
    match s
    case Paused | AwaitDecision | Failed => false
    case _ => true
  }

  lemma {:induction false} PlainPlace(j: Job)
    requires Plain(j.state)
    ensures Placed(j) <==> j.index <= |j.phases| && PlaceAt(j, j.state) && (j.builderResume == Developing || j.builderResume == BuildGate)
  {
  }

  lemma {:induction false} FailStays(j: Job, k: Job)
    requires Placed(j) && Working(j.state) && k == FailStep(j).(work := k.work, wip := k.wip, gateFixes := k.gateFixes, ciAttempts := k.ciAttempts, devopsStage := k.devopsStage)
    ensures Still(j, k) && Placed(k)
  {
    PlainPlace(j);
  }

  lemma {:induction false} AskStays(j: Job, k: Job, back: State)
    requires Placed(j) && Working(j.state) && Working(back) && PlaceAt(j, back)
    requires k == AskStep(j, back).(work := k.work, wip := k.wip, gateFixes := k.gateFixes)
    ensures Still(j, k) && Placed(k)
  {
  }

  lemma {:induction false} GateRed(cfg: Config, j: Job, gate: Gate)
    requires Placed(j) && j.state == BuildGate && gate.Red?
    ensures Still(j, GateStep(cfg, j, gate)) && Placed(GateStep(cfg, j, gate))
  {
    var k := GateStep(cfg, j, gate);
    PlainPlace(j);
    if cfg.maxAttempts <= k.work.attempts {
      FailStays(j, k);
    } else if gate.choice == Ask {
      AskStays(j, k, Developing);
    } else {
      PlainPlace(k);
    }
  }

  lemma {:induction false} GateLost(cfg: Config, j: Job, gate: Gate)
    requires Placed(j) && j.state == BuildGate && gate.Lost?
    ensures Still(j, GateStep(cfg, j, gate)) && Placed(GateStep(cfg, j, gate))
  {
    PlainPlace(j);
  }

  lemma {:induction false} GateUnread(cfg: Config, j: Job, gate: Gate)
    requires Placed(j) && j.state == BuildGate && gate.Green? && j.index + 1 in j.unread
    ensures Still(j, GateStep(cfg, j, gate)) && Placed(GateStep(cfg, j, gate))
  {
    PlainPlace(j);
  }

  lemma {:induction false} GateStays(cfg: Config, j: Job, gate: Gate)
    requires Placed(j) && j.state == BuildGate && !(gate.Green? && j.index + 1 !in j.unread)
    ensures Still(j, GateStep(cfg, j, gate)) && Placed(GateStep(cfg, j, gate))
  {
    match gate
    case Lost(_, _, _) => GateLost(cfg, j, gate);
    case Green(_, _) => GateUnread(cfg, j, gate);
    case Red(_, _, _, _, _) => GateRed(cfg, j, gate);
  }

  lemma {:induction false} GateMovesOn(cfg: Config, j: Job, gate: Gate)
    requires Placed(j) && j.state == BuildGate && gate.Green? && j.index + 1 !in j.unread
    ensures var k := GateStep(cfg, j, gate);
      && Placed(k) && LegalStep(j, k) && SamePlan(j, k) && k.replanFrom == j.replanFrom && k.index == j.index + 1
      && k.log == j.log + [Built(InTurn(j).uid)] && k.parked == j.parked
  {
  }

  lemma {:induction false} GateKeeps(cfg: Config, j: Job, gate: Gate)
    requires Inv(cfg, j) && j.state == BuildGate
    ensures var k := GateStep(cfg, j, gate); Inv(cfg, k) && Uncounted(j, k)
  {
    if gate.Green? && j.index + 1 !in j.unread {
      GreenStepKeeps(cfg, j, gate);
    } else {
      GateStays(cfg, j, gate);
      StillKeeps(cfg, j, GateStep(cfg, j, gate));
      GateUncounted(cfg, j, gate);
    }
  }

  lemma {:induction false} GateUncounted(cfg: Config, j: Job, gate: Gate)
    requires j.index < |j.phases|
    ensures GateStep(cfg, j, gate).autoApprovals == j.autoApprovals
  {
  }

  lemma {:induction false} GreenStepKeeps(cfg: Config, j: Job, gate: Gate)
    requires Inv(cfg, j) && j.state == BuildGate && gate.Green? && j.index + 1 !in j.unread
    ensures var k := GateStep(cfg, j, gate); Inv(cfg, k) && Uncounted(j, k)
  {
    GateMovesOn(cfg, j, gate);
    SettledGreen(j, GateStep(cfg, j, gate));
    PlainPlace(j);
  }

  lemma {:induction false} SettledGreen(j: Job, k: Job)
    requires PlanKept(j) && ProgressKept(j) && j.index < |j.phases| && SamePlan(j, k)
    requires k.log == j.log + [Built(InTurn(j).uid)] && k.index == j.index + 1 && k.replanFrom == j.replanFrom
    ensures PlanKept(k) && ProgressKept(k)
  {
    GreenKeeps(j);
    assert forall n: nat :: 1 <= n <= k.index ==> n <= j.index || At(j.phases, n) == InTurn(j);
  }

  lemma {:induction false} ReviewStays(cfg: Config, j: Job, blocking: nat, enforced: bool)
    requires Placed(j) && j.state == Review
    ensures var k := ReviewStep(cfg, j, blocking, enforced); Still(j, k) && Placed(k) && k.autoApprovals == j.autoApprovals
  {
    PlainPlace(j);
    PlainPlace(ReviewStep(cfg, j, blocking, enforced));
  }

  lemma {:induction false} ReviewKeeps(cfg: Config, j: Job, blocking: nat, enforced: bool)
    requires Inv(cfg, j) && j.state == Review
    ensures var k := ReviewStep(cfg, j, blocking, enforced); Inv(cfg, k) && Uncounted(j, k)
  {
    ReviewStays(cfg, j, blocking, enforced);
    StillKeeps(cfg, j, ReviewStep(cfg, j, blocking, enforced));
  }

  lemma {:induction false} QaWriteKeeps(cfg: Config, j: Job, rounds: Rounds, i: nat, write: bool)
    ensures var k := QaWriteFrom(cfg, j, rounds, i, write);
      k == j.(state := k.state, failedFrom := k.failedFrom, work := k.work) && (k.state == AwaitTest || (k.state == Failed && k.failedFrom == j.state))
    decreases cfg.maxAttempts - j.work.attempts
  {
    var red := j.(work := j.work.(attempts := j.work.attempts + 1));
    if (!write || rounds.written(i)) && !rounds.green(i) && red.work.attempts < cfg.maxAttempts {
      if !rounds.codeIsWrong(i) {
        QaWriteKeeps(cfg, red, rounds, i + 1, true);
      } else if rounds.fixed(i) {
        QaWriteKeeps(cfg, red, rounds, i + 1, false);
      }
    }
  }

  lemma {:induction false} QaStays(cfg: Config, j: Job, rounds: Rounds)
    requires Placed(j) && j.state == Qa
    ensures var k := QaStep(cfg, j, rounds); Still(j, k) && Placed(k) && k.autoApprovals == j.autoApprovals
  {
    var k := QaStep(cfg, j, rounds);
    QaWriteKeeps(cfg, j, rounds, 0, true);
    PlainPlace(j);
    if k.state == Failed {
      FailStays(j, k);
    } else {
      PlainPlace(k);
    }
  }

  lemma {:induction false} QaKeeps(cfg: Config, j: Job, rounds: Rounds)
    requires Inv(cfg, j) && j.state == Qa
    ensures var k := QaStep(cfg, j, rounds); Inv(cfg, k) && Uncounted(j, k)
  {
    QaStays(cfg, j, rounds);
    StillKeeps(cfg, j, QaStep(cfg, j, rounds));
  }

  // -- plans made and edited ------------------------------------------------------------

  /** A plan whose first phases are the ones already settled. */
  lemma {:induction false} NewPlanKeeps(cfg: Config, j: Job, drafts: seq<Draft>, k: Job)
    requires Inv(cfg, j) && KeptOf(j) <= |j.phases| && KeptRun(j, KeptOf(j), drafts) == KeptOf(j)
    requires Backward(Compose(j, KeptOf(j), drafts)) && k == NewPlan(j, KeptOf(j), drafts).(index := KeptOf(j), state := AwaitArchitecture, work := k.work)
    ensures Inv(cfg, k) && (LegalStep(j, k) ==> StepKept(j, k))
  {
    var kept := KeptOf(j);
    ComposeKeeps(j, kept, drafts);
    forall n: nat | 1 <= n <= kept ensures At(k.phases, n).uid in Uids(k.log) {
      ComposeUids(j, kept, drafts, n);
    }
    WantedStill(j, k);
    assert PlaceKept(k) && WayBackKept(k);
  }

  lemma {:induction false} WantedStill(j: Job, k: Job)
    requires LinearExtension(j.log, j.want) && WantKept(j, k)
    ensures LinearExtension(j.log, k.want)
  {
  }

  /** The Architect's own phases follow the ones kept, which stay as they were. */
  lemma {:induction false} KeptWhole(j: Job, drafts: seq<Draft>)
    requires KeptOf(j) <= |j.phases|
    ensures var kept := KeptOf(j);
      KeptRun(j, kept, Whole(j.phases, kept, drafts)) == kept
  {
    var kept := KeptOf(j);
    var whole := Whole(j.phases, kept, drafts);
    AllTrue(seq(kept, i requires 0 <= i < kept => DraftOf(j.phases[i]) == whole[i]));
    assert seq(kept, i requires 0 <= i < kept => DraftOf(j.phases[i]) == whole[i])
        == seq(kept, i requires 0 <= i < kept && i < |whole| => DraftOf(j.phases[i]) == whole[i]);
  }

  lemma {:induction false} AllTrue(run: seq<bool>)
    requires forall i :: 0 <= i < |run| ==> run[i]
    ensures LeadingRun(run) == |run|
  {
    if run != [] {
      AllTrue(run[1..]);
    }
  }

  /** What a new plan says of the phases kept is what they said before. */
  lemma {:induction false} KeptBackward(j: Job, kept: nat, drafts: seq<Draft>)
    requires PlanKept(j) && KeptRun(j, kept, drafts) == kept && BackwardFrom(Compose(j, kept, drafts), kept)
    ensures Backward(Compose(j, kept, drafts))
  {
    var ps := Compose(j, kept, drafts);
    forall n: nat, d: nat | 0 < n <= |ps| && States(ps, n, d) ensures 1 <= d < n {
      if n <= kept {
        ComposeUids(j, kept, drafts, n);
        assert States(j.phases, n, d);
      }
    }
  }

  lemma {:induction false} PlanKeeps(cfg: Config, j: Job, drafts: seq<Draft>)
    requires Inv(cfg, j) && j.state == Architecture && KeptOf(j) <= |j.phases|
    ensures var k := PlanStep(cfg, j, drafts); Inv(cfg, k) && Uncounted(j, k)
  {
    var k := PlanStep(cfg, j, drafts);
    var kept := KeptOf(j);
    var whole := Whole(j.phases, kept, drafts);
    if cfg.maxRejects < j.rejects || !Sound(Compose(j, kept, whole), kept) {
      StillKept(j, k);
      assert PlaceKept(k) && WayBackKept(k);
    } else {
      KeptWhole(j, drafts);
      KeptBackward(j, kept, whole);
      NewPlanKeeps(cfg, j, whole, k);
    }
  }

  lemma {:induction false} EditKeeps(cfg: Config, j: Job, drafts: seq<Draft>)
    requires Inv(cfg, j) && KeptRun(j, KeptOf(j), drafts) == KeptOf(j) && EditStep(j, drafts).Some?
    ensures var k := EditStep(j, drafts).value; Inv(cfg, k) && Uncounted(j, k)
  {
    NewPlanKeeps(cfg, j, drafts, EditStep(j, drafts).value);
  }

  // -- what people decide ---------------------------------------------------------------

  lemma {:induction false} ReadStays(j: Job, found: map<nat, bool>)
    requires Placed(j) && j.state == Reconcile
    ensures var k := ReadStep(j, found); Still(j, k) && Placed(k) && k.autoApprovals == j.autoApprovals
  {
    PlainPlace(j);
    PlainPlace(ReadStep(j, found));
  }

  lemma {:induction false} ReadKeeps(cfg: Config, j: Job, found: map<nat, bool>)
    requires Inv(cfg, j) && j.state == Reconcile
    ensures var k := ReadStep(j, found); Inv(cfg, k) && Uncounted(j, k)
  {
    ReadStays(j, found);
    StillKeeps(cfg, j, ReadStep(j, found));
  }

  lemma {:induction false} HandKeeps(log: seq<Settled>, ps: seq<Phase>, want: Wants, start: nat, resume: nat)
    requires start <= resume <= |ps| && InOrder(ps, want) && LinearExtension(log, want)
    requires forall n: nat :: 1 <= n <= start ==> At(ps, n).uid in Uids(log)
    ensures LinearExtension(log + HandLog(ps, start, resume), want)
    ensures forall n: nat :: 1 <= n <= resume ==> At(ps, n).uid in Uids(log + HandLog(ps, start, resume))
    decreases resume - start
  {
    if start < resume {
      var more := HandLog(ps, start, resume - 1);
      HandKeeps(log, ps, want, start, resume - 1);
      var last := ByHand(At(ps, resume).uid);
      assert log + HandLog(ps, start, resume) == log + more + [last];
      OneMore(log + more, ps, want, resume - 1, last);
    } else {
      assert log + HandLog(ps, start, resume) == log;
    }
  }

  /** The next phase in turn is settled after everything it needs. */
  lemma {:induction false} OneMore(log: seq<Settled>, ps: seq<Phase>, want: Wants, n: nat, last: Settled)
    requires n < |ps| && InOrder(ps, want) && LinearExtension(log, want)
    requires forall m: nat :: 1 <= m <= n ==> At(ps, m).uid in Uids(log)
    requires UidOf(last) == At(ps, n + 1).uid
    ensures LinearExtension(log + [last], want)
    ensures forall m: nat :: 1 <= m <= n + 1 ==> At(ps, m).uid in Uids(log + [last])
  {
    LogGrows(log, [last]);
    assert [last][0] == last && UidOf(last) in Uids([last]);
    assert (log + [last])[..|log|] == log;
    forall k: nat | k < |log| ensures (log + [last])[..k] == log[..k] {
    }
    forall u | u in Before(ps, n + 1) ensures u in Uids(log) {
      var m: nat :| 1 <= m < n + 1 && At(ps, m).uid == u;
    }
  }

  lemma {:induction false} AcceptKeeps(j: Job)
    requires PlanKept(j) && ProgressKept(j) && ReadingFits(j) && j.replanFrom.None?
    ensures PlanKept(AcceptReading(j)) && ProgressKept(AcceptReading(j))
  {
    var k := AcceptReading(j);
    HandKeeps(j.log, j.phases, j.want, j.index, k.index);
  }

  /** Answering a question goes back to the state that asked it. */
  lemma {:induction false} AnsweredStays(j: Job, k: Job)
    requires Placed(j) && j.state == AwaitDecision && j.resume.Some?
    requires k == j.(state := ResumeOf(j), resume := None, rejects := 0, budgetStop := k.budgetStop, work := k.work)
    ensures Still(j, k) && Placed(k)
  {
    PlainPlace(k);
  }

  lemma {:induction false} ApproveStays(j: Job, drawing: bool, empty: bool)
    requires Placed(j) && j.state != AwaitReconcile && ApproveStep(j, drawing, empty).Some?
    ensures var k := ApproveStep(j, drawing, empty).value; Still(j, k) && Placed(k) && k.autoApprovals == j.autoApprovals
  {
    var k := ApproveStep(j, drawing, empty).value;
    if j.state == AwaitDecision {
      AnsweredStays(j, k);
    } else {
      GateApproved(j, drawing, empty);
      PlainPlace(k);
    }
  }

  lemma {:induction false} GateApproved(j: Job, drawing: bool, empty: bool)
    requires Placed(j) && j.state != AwaitReconcile && j.state != AwaitDecision && ApproveStep(j, drawing, empty).Some?
    ensures var k := ApproveStep(j, drawing, empty).value;
      && Plain(k.state) && Still(j, k) && PlaceAt(k, k.state) && k.autoApprovals == j.autoApprovals && k.builderResume == j.builderResume
  {
    PlainPlace(j);
  }

  lemma {:induction false} AcceptPlaced(j: Job, drawing: bool, empty: bool)
    requires Placed(j) && j.state == AwaitReconcile
    ensures ApproveStep(j, drawing, empty) == Some(AcceptReading(j.(rejects := 0)))
    ensures var k := AcceptReading(j.(rejects := 0)); Placed(k) && LegalStep(j, k) && SamePlan(j, k) && j.log <= k.log && k.parked == j.parked
  {
  }

  lemma {:induction false} ApproveKeeps(cfg: Config, j: Job, drawing: bool, empty: bool)
    requires Inv(cfg, j) && ApproveStep(j, drawing, empty).Some?
    ensures var k := ApproveStep(j, drawing, empty).value; Inv(cfg, k) && StepKept(j, k) && k.autoApprovals == j.autoApprovals
  {
    var k := ApproveStep(j, drawing, empty).value;
    if j.state == AwaitReconcile {
      AcceptPlaced(j, drawing, empty);
      AcceptKeeps(j.(rejects := 0));
    } else {
      ApproveStays(j, drawing, empty);
      StillKeeps(cfg, j, k);
    }
  }

  lemma {:induction false} RejectStays(j: Job)
    requires Placed(j) && RejectStep(j).Some?
    ensures var k := RejectStep(j).value; Still(j, k) && Placed(k) && k.autoApprovals == j.autoApprovals
  {
    if j.state == AwaitDecision {
      AnsweredStays(j, RejectStep(j).value);
    } else {
      GateRejected(j);
      PlainPlace(RejectStep(j).value);
    }
  }

  lemma {:induction false} GateRejected(j: Job)
    requires Placed(j) && j.state != AwaitDecision && RejectStep(j).Some?
    ensures var k := RejectStep(j).value;
      && Plain(k.state) && Still(j, k) && PlaceAt(k, k.state) && k.autoApprovals == j.autoApprovals && k.builderResume == j.builderResume
  {
    PlainPlace(j);
  }

  /** What moves on from one state that is what it looks like to another. */
  predicate Onward(e: Event)
  {
    || e.BacklogWritten? || e.ScreensDrawn? || e.ShippingTurn? || e.Started? || e.TestsSkipped? || e.DeploymentSkipped?
    || e.ScreensAnswered? || e.BuilderCame?
  }

  lemma {:induction false} OnwardStays(cfg: Config, j: Job, e: Event)
    requires Placed(j) && Onward(e) && Next(cfg, j, e).Some?
    ensures var k := Next(cfg, j, e).value; Still(j, k) && Placed(k) && k.autoApprovals == j.autoApprovals
  {
    var k := Next(cfg, j, e).value;
    if e.BacklogWritten? && cfg.maxRejects < j.rejects {
      FailStays(j, k);
    } else if e.BuilderCame? {
      BuilderStays(j, k);
    } else if e.TestsSkipped? || e.DeploymentSkipped? || e.ScreensAnswered? {
      GateLeft(cfg, j, e);
    } else if e.ShippingTurn? {
      ShippingStays(cfg, j, e.shipping);
    } else {
      PlainPlace(j);
      PlainPlace(k);
    }
  }

  lemma {:induction false} ShipFromKeeps(cfg: Config, j: Job, ci: nat -> Ci, i: nat)
    ensures var k := ShipFrom(cfg, j, ci, i);
      && k == j.(state := k.state, failedFrom := k.failedFrom, ciAttempts := k.ciAttempts)
      && (k.state == Done || (k.state == Failed && k.failedFrom == j.state))
    decreases cfg.maxCiAttempts - j.ciAttempts
  {
    if ci(i) == CiRed(true) && j.ciAttempts < cfg.maxCiAttempts {
      ShipFromKeeps(cfg, j.(ciAttempts := j.ciAttempts + 1), ci, i + 1);
    }
  }

  lemma {:induction false} ShippingStays(cfg: Config, j: Job, shipping: Shipping)
    requires Placed(j) && j.state == DevOps
    ensures var k := ShipStep(cfg, j, shipping); Still(j, k) && Placed(k) && k.autoApprovals == j.autoApprovals
  {
    var k := ShipStep(cfg, j, shipping);
    ShipFromKeeps(cfg, j.(devopsStage := 2), shipping.ci, 0);
    PlainPlace(j);
    if k.state == Failed {
      FailStays(j, k);
    } else {
      PlainPlace(k);
    }
  }

  lemma {:induction false} GateLeft(cfg: Config, j: Job, e: Event)
    requires Placed(j) && (e.TestsSkipped? || e.DeploymentSkipped? || e.ScreensAnswered?) && Next(cfg, j, e).Some?
    ensures var k := Next(cfg, j, e).value; Still(j, k) && Placed(k) && k.autoApprovals == j.autoApprovals
  {
    PlainPlace(j);
    PlainPlace(Next(cfg, j, e).value);
  }

  lemma {:induction false} BuilderStays(j: Job, k: Job)
    requires Placed(j) && j.state == AwaitBuilder && k == j.(state := j.builderResume)
    ensures Still(j, k) && Placed(k) && k.autoApprovals == j.autoApprovals
  {
    PlainPlace(j);
    PlainPlace(k);
  }

  /** What turns a development aside: a halt, a pause, a plan made again, another try. */
  predicate Aside(e: Event)
  {
    || e.HandlerFailed? || e.HandlerLooped? || e.PausePressed? || e.CarriedOn? || e.CancelPressed? || e.Redirected?
    || e.PhaseReplanned? || e.Retried? || e.StartedOver?
  }

  lemma {:induction false} PausedStays(cfg: Config, j: Job)
    requires Placed(j) && Next(cfg, j, PausePressed).Some?
    ensures var k := Next(cfg, j, PausePressed).value; Still(j, k) && Placed(k) && k.autoApprovals == j.autoApprovals
  {
  }

  lemma {:induction false} CarriedStays(cfg: Config, j: Job, brought: bool)
    requires Placed(j) && Next(cfg, j, CarriedOn(brought)).Some?
    ensures var k := Next(cfg, j, CarriedOn(brought)).value; Still(j, k) && Placed(k) && k.autoApprovals == j.autoApprovals
  {
    var k := Next(cfg, j, CarriedOn(brought)).value;
    if k.state == Reconcile && j.pause.value.from != Reconcile {
      ToReconcile(j, k);
    } else {
      BackAgain(j, k);
    }
  }

  lemma {:induction false} ToReconcile(j: Job, k: Job)
    requires Placed(j) && j.state == Paused && BuildingState(BackOf(j)) && k == j.(state := Reconcile, reading := None)
    ensures Still(j, k) && Placed(k)
  {
    PlainPlace(k);
  }

  lemma {:induction false} BackAgain(j: Job, k: Job)
    requires Placed(j) && j.state == Paused && k == j.(state := j.pause.value.from, reading := k.reading)
    requires k.reading == j.reading || k.state == Reconcile
    ensures Still(j, k) && Placed(k)
  {
  }

  lemma {:induction false} AsideStays(cfg: Config, j: Job, e: Event)
    requires Placed(j) && Aside(e) && Next(cfg, j, e).Some?
    ensures var k := Next(cfg, j, e).value; Still(j, k) && Placed(k) && k.autoApprovals == j.autoApprovals
  {
    var k := Next(cfg, j, e).value;
    match e
    case HandlerFailed => FailStays(j, k);
    case HandlerLooped =>
      PlainPlace(j);
      AskStays(j, k, j.state);
    case PausePressed => PausedStays(cfg, j);
    case CarriedOn(brought) => CarriedStays(cfg, j, brought);
    case Retried => RetriedStays(j);
    case _ => StartsElsewhere(cfg, j, e);
  }

  lemma {:induction false} StartsElsewhere(cfg: Config, j: Job, e: Event)
    requires Placed(j) && (e.CancelPressed? || e.Redirected? || e.PhaseReplanned? || e.StartedOver?) && Next(cfg, j, e).Some?
    ensures var k := Next(cfg, j, e).value; Still(j, k) && Placed(k) && k.autoApprovals == j.autoApprovals
  {
    PlainPlace(Next(cfg, j, e).value);
  }

  lemma {:induction false} RetriedStays(j: Job)
    requires Placed(j) && RetryStep(j).Some?
    ensures var k := RetryStep(j).value; Still(j, k) && Placed(k) && k.autoApprovals == j.autoApprovals
  {
    PlainPlace(RetryStep(j).value);
  }

  lemma {:induction false} UnreadAside(j: Job, k: Job)
    requires Placed(j) && k == j.(unread := k.unread)
    ensures Still(j, k) && Placed(k) && k.autoApprovals == j.autoApprovals
  {
  }

  lemma {:induction false} SteeredStays(cfg: Config, j: Job, n: nat)
    requires Placed(j) && Next(cfg, j, Steered(n)).Some?
    ensures var k := Next(cfg, j, Steered(n)).value; Still(j, k) && Placed(k) && k.autoApprovals == j.autoApprovals
  {
    UnreadAside(j, Next(cfg, j, Steered(n)).value);
  }

  lemma {:induction false} AutoKeeps(cfg: Config, j: Job, drawing: bool, empty: bool)
    requires Inv(cfg, j) && AutoStep(cfg, j, drawing, empty).Some?
    ensures var k := AutoStep(cfg, j, drawing, empty).value;
      Inv(cfg, k) && StepKept(j, k) && k.autoApprovals == j.autoApprovals + 1
  {
    var once := Counted(j);
    CountedKept(cfg, j, once);
    if ApproveStep(once, drawing, empty).Some? {
      ApproveKeeps(cfg, once, drawing, empty);
      CountedStep(j, once, ApproveStep(once, drawing, empty).value);
    }
  }

  lemma {:induction false} CountedStep(j: Job, once: Job, k: Job)
    requires once == Counted(j) && StepKept(once, k)
    ensures StepKept(j, k)
  {
  }

  lemma {:induction false} CountedKept(cfg: Config, j: Job, k: Job)
    requires Inv(cfg, j) && k == Counted(j) && k.autoApprovals <= cfg.cap
    ensures Inv(cfg, k) && StepKept(j, k)
  {
    StillKept(j, k);
    CountedPlaced(j, k);
  }

  lemma {:induction false} CountedPlaced(j: Job, k: Job)
    requires Placed(j) && k == Counted(j)
    ensures Placed(k)
  {
  }

  lemma {:induction false} SupervisorKeeps(cfg: Config, j: Job, e: Event)
    requires Inv(cfg, j) && CountsOne(e) && Next(cfg, j, e).Some?
    ensures var k := Next(cfg, j, e).value; Inv(cfg, k) && StepKept(j, k) && k.autoApprovals == j.autoApprovals + 1
  {
    if e.AutoApproved? {
      AutoKeeps(cfg, j, e.drawing, e.empty);
    } else {
      CountedKept(cfg, j, Counted(j));
    }
  }

  /** The supervisor approves, or means to: one approval more is counted. */
  predicate CountsOne(e: Event)
  {
    e.AutoApproved? || e.AutoMissed?
  }

  predicate ByHandler(e: Event)
  {
    e.PlanWritten? || e.PhaseTurn? || e.GateRun? || e.PhaseReviewed? || e.TestsTurn? || e.PhasesRead?
  }

  lemma {:induction false} HandlerKeeps(cfg: Config, j: Job, e: Event)
    requires Inv(cfg, j) && Trusted(j, e) && ByHandler(e) && Next(cfg, j, e).Some?
    ensures var k := Next(cfg, j, e).value; Inv(cfg, k) && Uncounted(j, k)
  {
    match e
    case PlanWritten(drafts) => PlanKeeps(cfg, j, drafts);
    case PhaseTurn(here, screens, fits, answer) => DevelopKeeps(cfg, j, here, screens, fits, answer);
    case GateRun(builds) => GateKeeps(cfg, j, GateOf(cfg, j, builds));
    case PhaseReviewed(blocking, enforced) => ReviewKeeps(cfg, j, blocking, enforced);
    case TestsTurn(rounds) => QaKeeps(cfg, j, rounds);
    case PhasesRead(found) => ReadKeeps(cfg, j, found);
  }

  lemma {:induction false} PersonKeeps(cfg: Config, j: Job, e: Event)
    requires Inv(cfg, j) && Trusted(j, e) && Next(cfg, j, e).Some?
    requires e.Approved? || e.PlanEdited? || e.Rejected? || e.Steered?
    ensures var k := Next(cfg, j, e).value; Inv(cfg, k) && Uncounted(j, k)
  {
    match e
    case Approved(drawing, empty) => ApproveKeeps(cfg, j, drawing, empty);
    case PlanEdited(edited) => EditKeeps(cfg, j, edited);
    case Rejected =>
      RejectStays(j);
      StillKeeps(cfg, j, RejectStep(j).value);
    case Steered(n) =>
      SteeredStays(cfg, j, n);
      StillKeeps(cfg, j, Next(cfg, j, e).value);
  }

  lemma {:induction false} TurnedKeeps(cfg: Config, j: Job, e: Event)
    requires Inv(cfg, j) && (Onward(e) || Aside(e)) && Next(cfg, j, e).Some?
    ensures var k := Next(cfg, j, e).value; Inv(cfg, k) && Uncounted(j, k)
  {
    if Onward(e) {
      OnwardStays(cfg, j, e);
    } else {
      AsideStays(cfg, j, e);
    }
    StillKeeps(cfg, j, Next(cfg, j, e).value);
  }

  /** Every step of the engine keeps the invariant. */
  lemma {:induction false} StepKeeps(cfg: Config, j: Job, e: Event)
    requires Inv(cfg, j) && Trusted(j, e) && Next(cfg, j, e).Some?
    ensures Inv(cfg, Next(cfg, j, e).value) && StepKept(j, Next(cfg, j, e).value)
    ensures Next(cfg, j, e).value.autoApprovals == j.autoApprovals + if CountsOne(e) then 1 else 0
  {
    if CountsOne(e) {
      SupervisorKeeps(cfg, j, e);
    } else {
      OtherKeeps(cfg, j, e);
    }
  }

  lemma {:induction false} OtherKeeps(cfg: Config, j: Job, e: Event)
    requires Inv(cfg, j) && Trusted(j, e) && Next(cfg, j, e).Some? && !CountsOne(e)
    ensures Inv(cfg, Next(cfg, j, e).value) && Uncounted(j, Next(cfg, j, e).value)
  {
    if ByHandler(e) {
      HandlerKeeps(cfg, j, e);
    } else if Onward(e) || Aside(e) {
      TurnedKeeps(cfg, j, e);
    } else {
      PersonKeeps(cfg, j, e);
    }
  }
}
