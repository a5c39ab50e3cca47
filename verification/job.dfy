/**
 One development, and what each step of the engine makes of it (slipwright/engine.py,
 slipwright/orchestrator/__init__.py, slipwright/schemas/job.py).

 Model answers, build results and what people press are inputs. Text that only people
 read is left out; `wip` is what the checkout holds and no commit has.
 */
module Job {
  import opened Wrappers
  import opened Plan
  import opened Reordering

  datatype State =
    | Created | Backlog | AwaitBacklog | Architecture | AwaitArchitecture | Design | AwaitDesign
    | Developing | BuildGate | Review | AwaitReview | Qa | AwaitTest | DevOps | AwaitDeploy
    | AwaitDecision | AwaitBuilder | Paused | Reconcile | AwaitReconcile | Done | Cancelled | Failed

  /** The states the run loop has a handler for. */
  predicate Working(s: State)
  {
    match s
    case Backlog | Architecture | Design | Developing | BuildGate | Review | Qa | DevOps | Reconcile => true
    case _ => false
  }

  predicate Approval(s: State)
  {
    match s
    case AwaitBacklog | AwaitArchitecture | AwaitDesign | AwaitReview | AwaitTest | AwaitDeploy | AwaitReconcile | AwaitDecision => true
    case _ => false
  }

  predicate Terminal(s: State)
  {
    match s
    case Done | Failed | Cancelled => true
    case _ => false
  }

  /** Between an approved plan and its last phase built. */
  predicate BuildingState(s: State)
  {
    match s
    case Design | AwaitDesign | Developing | BuildGate | Review | AwaitReview | AwaitBuilder | Reconcile | AwaitReconcile => true
    case _ => false
  }

  /** Where only a development whose every phase is settled may be. */
  predicate AllBuiltState(s: State)
  {
    match s
    case Qa | AwaitTest | DevOps | AwaitDeploy | Done => true
    case _ => false
  }

  /** Where only a development with an approved plan may be. */
  predicate PlannedState(s: State)
  {
    BuildingState(s) || AllBuiltState(s)
  }

  /** Where a person may have the plan made again. */
  predicate Redirectable(s: State)
  {
    match s
    case Developing | BuildGate | Review | AwaitDecision | AwaitReview | AwaitBuilder | AwaitDesign => true
    case _ => false
  }

  predicate Pausable(s: State)
  {
    !Terminal(s) && s != Paused && s != Created
  }

  /** LEGAL_TRANSITIONS of the orchestrator. */
  predicate Legal(a: State, b: State)
  {
    || (!Terminal(a) && b == Cancelled)
    || (Pausable(a) && b == Paused)
    || (a == Paused && Pausable(b))
    || (Working(a) && b == AwaitDecision)
    || ((a == AwaitDecision || a == Failed) && Working(b))
    || (Working(a) && b == Failed)
    || match a
       case Created => b == Backlog
       case Backlog => b == AwaitBacklog || b == Architecture
       case AwaitBacklog => b == Backlog || b == Architecture
       case Architecture => b == AwaitArchitecture
       case AwaitArchitecture => b == Architecture || b == Design || b == Developing
       case Design => b == Developing
       case Developing => b == BuildGate || b == AwaitDesign || b == AwaitBuilder || b == Architecture
       case AwaitBuilder => b == Developing || b == BuildGate || b == Architecture
       case AwaitDesign => b == Developing || b == Design || b == Architecture
       case BuildGate => b == Developing || b == Review || b == Qa || b == AwaitBuilder || b == Done || b == Architecture
       case Review => b == Developing || b == Qa || b == AwaitReview || b == Architecture
       case AwaitReview => b == Developing || b == Qa || b == Architecture
       case Qa => b == AwaitTest
       case AwaitTest => b == Qa || b == DevOps
       case DevOps => b == AwaitDeploy || b == Done
       case AwaitDeploy => b == DevOps
       case Reconcile => b == AwaitReconcile
       case AwaitReconcile => b == Developing || b == Qa || b == Reconcile
       case Done => b == BuildGate || b == Qa || b == DevOps
       case _ => false
  }

  // -- what a development carries -------------------------------------------------------

  /** What the phase in turn went through so far. */
  datatype Work = Work(attempts: nat, output: string, diagnosis: string, violations: nat, rounds: nat, calls: nat)

  const NO_WORK := Work(0, "", "", 0, 0, 0)

  /** A phase set aside: why, what it had written, what it went through, and which it is. */
  datatype Held = Held(why: string, patch: string, work: Work, uid: nat)

  type Parked = map<nat, Held>

  datatype Pause = Pause(from: State, index: nat)

  /** What the Architect found of the phases from `start` on: done or not, one by one. */
  datatype Reading = Reading(start: nat, done: seq<bool>)

  /** How a phase was settled: built green, or accepted as finished by hand. */
  datatype Settled = Built(uid: nat) | ByHand(uid: nat)

  datatype Job = Job(
    state: State,
    phases: seq<Phase>,
    index: nat,
    nextObj: nat,
    nextUid: nat,
    parked: Parked,
    work: Work,
    wip: string,
    unread: multiset<nat>,
    resume: Option<State>,
    budgetStop: bool,
    replanFrom: Option<nat>,
    rejects: nat,
    qaStage: nat,
    devopsStage: nat,
    autoApprovals: nat,
    gateFixes: nat,
    ciAttempts: nat,
    pause: Option<Pause>,
    failedFrom: State,
    builderResume: State,
    reading: Option<Reading>,
    plan: nat,
    approved: nat,
    want: Wants,
    log: seq<Settled>)

  const NEW_JOB := Job(
    Created, [], 0, 0, 0, map[], NO_WORK, "", multiset{}, None, false, None, 0, 1, 1, 0, 0, 0,
    None, Backlog, Developing, None, 0, 0, map[], [])

  /** How the records of phases set aside find their phases again after a move: by the
      identity of the phase's record, as the code looks them up, or by the phase itself,
      as its comment asks. */
  datatype Filing = ByRecord | ByPhase

  datatype Config = Config(
    filing: Filing, maxAttempts: nat, maxRounds: nat, maxRejects: nat, cap: nat, maxGateFixes: nat, maxCiAttempts: nat)

  function InTurn(j: Job): Phase
    requires j.index < |j.phases|
  {
    At(j.phases, j.index + 1)
  }

  // -- moving phases --------------------------------------------------------------------

  function KeyOf(filing: Filing, p: Phase): nat
  {
    if filing.ByRecord? then p.obj else p.uid
  }

  /** The records of the phases from number `lo` on, by what identifies the phase. */
  function Moving(filing: Filing, ps: seq<Phase>, parked: Parked, lo: nat): Parked
    requires 1 <= lo
    decreases |ps| + 1 - lo
  {
    if |ps| < lo then map[]
    else
      var rest := Moving(filing, ps, parked, lo + 1);
      if lo in parked then rest[KeyOf(filing, At(ps, lo)) := parked[lo]] else rest
  }

  /** The records that find one of the first `n` phases, under its number. */
  function Landed(filing: Filing, qs: seq<Phase>, moving: Parked, n: nat): Parked
    requires n <= |qs|
  {
    if n == 0 then map[]
    else
      var rest := Landed(filing, qs, moving, n - 1);
      if KeyOf(filing, At(qs, n)) in moving then rest[n := moving[KeyOf(filing, At(qs, n))]] else rest
  }

  /** The records filed again under the numbers their phases have now. */
  function Refiled(filing: Filing, ps: seq<Phase>, qs: seq<Phase>, parked: Parked, lo: nat): (r: Parked)
    requires 1 <= lo
  {
    (parked - (UpTo(|ps|) - UpTo(lo - 1))) + Landed(filing, qs, Moving(filing, ps, parked, lo), |qs|)
  }

  ghost function MoveOf(j: Job, later: set<nat>): seq<nat>
    requires j.index <= |j.phases|
  {
    Moves(|j.phases|, j.index, later)
  }

  ghost function MovePhases(j: Job, later: set<nat>): (r: Job)
    requires j.index <= |j.phases|
  {
    MovesPermute(|j.phases|, j.index, later);
    j.(phases := Reordered(j.phases, MoveOf(j, later), j.nextObj), nextObj := j.nextObj + |j.phases|)
  }

  /** The unbuilt phases that need nothing of the one in turn. */
  function Free(j: Job): set<nat>
    requires j.index < |j.phases|
  {
    (set n | n in UpTo(|j.phases|) && j.index < n) - Needing(j.phases, j.index + 1)
  }

  ghost predicate SomeFree(j: Job)
    requires j.index < |j.phases|
  {
    exists n :: n in Free(j)
  }

  /** `_park`: the phase in turn is set aside, and the development goes on with the others. */
  ghost function ParkStep(filing: Filing, j: Job, why: string): (r: Job)
    requires j.index < |j.phases|
  {
    var later := Needing(j.phases, j.index + 1);
    var moved := MovePhases(j, later);
    MovesPermute(|j.phases|, j.index, later);
    var place := Place(MoveOf(j, later), j.index + 1);
    moved.(
      parked := Refiled(filing, j.phases, moved.phases, j.parked, j.index + 1)[place := Held(why, j.wip, j.work, InTurn(j).uid)],
      work := NO_WORK,
      wip := "",
      state := Developing)
  }

  /** `_unpark`: a phase set aside is put back as it was, and the person is asked. */
  function UnparkStep(j: Job, fits: bool): (r: Job)
    requires j.index + 1 in j.parked
  {
    var held := j.parked[j.index + 1];
    AskAboutBudget(j.(
      parked := j.parked - {j.index + 1},
      wip := if fits then held.patch else j.wip,
      work := held.work))
  }

  function AskAboutBudget(j: Job): Job
  {
    j.(state := AwaitDecision, resume := Some(Developing), budgetStop := true)
  }

  /** Whether moving what cannot be built here behind the rest would change anything. */
  ghost predicate WouldMove(j: Job, here: set<Platform>)
  {
    exists a: nat, b: nat :: j.index < a < b <= |j.phases| && !BuildableHere(At(j.phases, a), here) && BuildableHere(At(j.phases, b), here)
  }

  /** `_put_unbuildable_last`. */
  ghost function UnbuildableLast(j: Job, here: set<Platform>): (r: Job)
    requires j.index <= |j.phases|
  {
    if WouldMove(j, here) then MovePhases(j, Unbuildable(j.phases, j.index, here)) else j
  }

  // -- the steps of the run loop --------------------------------------------------------

  /** How the specialist's turn ended. */
  datatype Answer = Written(diff: string) | Broken | Looped | Spent(why: string)

  function FailStep(j: Job): Job
  {
    j.(state := Failed, failedFrom := j.state)
  }

  function AskStep(j: Job, back: State): Job
  {
    j.(state := AwaitDecision, resume := Some(back))
  }

  /** The phase ran out of its budget: set aside, or the person is asked now. */
  ghost function SpentStep(filing: Filing, j: Job, why: string): Job
    requires j.index < |j.phases|
  {
    if SomeFree(j) then ParkStep(filing, j, why) else AskAboutBudget(j)
  }

  /** `_develop`, from its phase in turn: `here` is what can be built now, `screens` whether
      screens this phase draws still wait for a yes, `fits` whether work put back applies. */
  ghost function DevelopStep(filing: Filing, j: Job, here: set<Platform>, screens: bool, fits: bool, answer: Answer): Job
  {
    if |j.phases| <= j.index then FailStep(j)
    else if j.index + 1 in j.parked then UnparkStep(j, fits)
    else TurnStep(filing, Ready(j, here), here, screens, answer)
  }

  /** The development with a phase in turn that can be built here, if one is left. */
  ghost function Ready(j: Job, here: set<Platform>): (r: Job)
    requires j.index < |j.phases|
    ensures r.index == j.index && |r.phases| == |j.phases|
  {
    if BuildableHere(InTurn(j), here) then j else UnbuildableLast(j, here)
  }

  ghost function TurnStep(filing: Filing, j: Job, here: set<Platform>, screens: bool, answer: Answer): Job
    requires j.index < |j.phases|
  {
    if !BuildableHere(InTurn(j), here) then j.(state := AwaitBuilder, builderResume := Developing)
    else if screens then j.(state := AwaitDesign)
    else AnswerStep(filing, j, answer)
  }

  ghost function AnswerStep(filing: Filing, j: Job, answer: Answer): Job
    requires j.index < |j.phases|
  {
    match answer
    case Written(diff) => j.(state := BuildGate, wip := diff, unread := j.unread[j.index + 1 := 0])
    case Broken => FailStep(j)
    case Looped => AskStep(j, Developing)
    case Spent(why) => SpentStep(filing, j, why)
  }

  /** What the supervisor says to a red build gate. */
  datatype Choice = Fix | Replan | Ask

  /** How one build of a gate went, and what QA says to one that failed. */
  datatype Build = Passing | Failing(output: string) | NoBuilder

  datatype Triage = Corrected(wip: string) | Blamed(diagnosis: string)

  /** What happens each time a gate is built: `review` says whether the project has its
      phases reviewed, `choice` what the supervisor says when it stays red. */
  datatype Builds = Builds(build: nat -> Build, triage: nat -> Triage, review: bool, choice: Choice)

  /** How a build gate went: `wip` is what the checkout holds then, `fixes` how often QA
      corrected its tests for this phase. */
  datatype Gate =
    | Green(wip: string, review: bool)
    | Red(wip: string, output: string, diagnosis: string, choice: Choice, fixes: nat)
    | Lost(wip: string, diagnosis: string, fixes: nat)

  /** The gate from its build `i` on: while it is red and QA corrects its own tests, it is
      built again, as often as that is allowed. */
  function GateFrom(cfg: Config, wip: string, diagnosis: string, fixes: nat, builds: Builds, i: nat): Gate
    decreases cfg.maxGateFixes - fixes
  {
    match builds.build(i)
    case NoBuilder => Lost(wip, diagnosis, fixes)
    case Passing => Green(wip, builds.review)
    case Failing(output) =>
      if cfg.maxGateFixes <= fixes then Red(wip, output, diagnosis, builds.choice, fixes)
      else
        match builds.triage(i)
        case Corrected(fixed) => GateFrom(cfg, fixed, "", fixes + 1, builds, i + 1)
        case Blamed(why) => Red(wip, output, why, builds.choice, fixes)
  }

  function GateOf(cfg: Config, j: Job, builds: Builds): Gate
  {
    GateFrom(cfg, j.wip, j.work.diagnosis, j.gateFixes, builds, 0)
  }

  /** `_replan_from`: the plan goes back to the Architect, who keeps the phases before `at`. */
  function ReplanFromStep(j: Job, at: nat): Job
  {
    j.(state := Architecture, replanFrom := Some(at), index := at, work := NO_WORK, budgetStop := false, gateFixes := 0)
  }

  /** `_build_gate`. A green phase somebody wrote about goes back to be read first. */
  function GateStep(cfg: Config, j: Job, gate: Gate): Job
    requires j.index < |j.phases|
  {
    match gate
    case Lost(wip, diagnosis, fixes) =>
      j.(state := AwaitBuilder, builderResume := BuildGate, wip := wip, work := j.work.(diagnosis := diagnosis), gateFixes := fixes)
    case Green(wip, review) =>
      var green := j.(wip := wip, work := j.work.(attempts := 0, output := "", diagnosis := ""), gateFixes := 0);
      if j.index + 1 in j.unread then green.(state := Developing)
      else
        green.(
          wip := "",
          index := j.index + 1,
          log := j.log + [Built(InTurn(j).uid)],
          state := if review then Review else if j.index + 1 == |j.phases| then Qa else Developing)
    case Red(wip, output, diagnosis, choice, fixes) =>
      var red := j.(wip := wip, work := j.work.(attempts := j.work.attempts + 1, output := output, diagnosis := diagnosis), gateFixes := fixes);
      if cfg.maxAttempts <= red.work.attempts then FailStep(red)
      else match choice
        case Fix => red.(state := Developing)
        case Replan => ReplanFromStep(red, red.index)
        case Ask => AskStep(red, Developing)
  }

  /** `_review`: `blocking` findings count only where the project lets them block. */
  function ReviewStep(cfg: Config, j: Job, blocking: nat, enforced: bool): Job
  {
    if j.index == 0 || |j.phases| < j.index then FailStep(j)
    else if 0 < blocking && enforced then
      var found := j.(work := j.work.(violations := blocking));
      if j.work.rounds < cfg.maxRounds then
        found.(state := Developing, index := j.index - 1, work := found.work.(rounds := j.work.rounds + 1))
      else found.(state := AwaitReview)
    else
      j.(work := j.work.(violations := 0, rounds := 0),
         state := if j.index == |j.phases| then Qa else Developing)
  }

  /** How many of the first are true, without a break. */
  function LeadingRun(run: seq<bool>): (n: nat)
    ensures n <= |run|
  {
    if run == [] || !run[0] then 0 else 1 + LeadingRun(run[1..])
  }

  // -- plans ----------------------------------------------------------------------------

  /** A phase as the Architect, or a person editing the plan, writes it. */
  datatype Draft = Draft(needs: Option<set<nat>>, platform: Option<Platform>, files: seq<string>)

  function DraftOf(p: Phase): Draft
  {
    Draft(p.needs, p.platform, p.files)
  }

  /** How many of the first `kept` phases an answer leaves word for word as they were. */
  function RunKept(ps: seq<Phase>, kept: nat, drafts: seq<Draft>): (n: nat)
    ensures n <= kept && n <= |ps| && n <= |drafts|
  {
    var most := if kept < |ps| then kept else |ps|;
    LeadingRun(seq(if most < |drafts| then most else |drafts|, i requires 0 <= i < most && i < |drafts| => DraftOf(ps[i]) == drafts[i]))
  }

  function KeptRun(j: Job, kept: nat, drafts: seq<Draft>): (n: nat)
    ensures n <= kept && n <= |j.phases| && n <= |drafts|
  {
    RunKept(j.phases, kept, drafts)
  }

  /** The phases left as they were are still those phases; the others are new ones. */
  function Drafted(ps: seq<Phase>, nextObj: nat, nextUid: nat, kept: nat, drafts: seq<Draft>): (qs: seq<Phase>)
    ensures |qs| == |drafts|
  {
    seq(|drafts|, i requires 0 <= i < |drafts| =>
      if i < RunKept(ps, kept, drafts) then ps[i].(obj := nextObj + i)
      else Phase(nextUid + i, nextObj + i, drafts[i].needs, drafts[i].platform, drafts[i].files))
  }

  function Compose(j: Job, kept: nat, drafts: seq<Draft>): (ps: seq<Phase>)
    ensures |ps| == |drafts|
  {
    Drafted(j.phases, j.nextObj, j.nextUid, kept, drafts)
  }

  /** What each phase of the plan needs, now that it is written. */
  function WantsOf(ps: seq<Phase>, n: nat): set<nat>
    requires 1 <= n <= |ps|
  {
    if At(ps, n).needs.None? then Before(ps, n) else NamedBy(ps, n)
  }

  function ComposeWants(j: Job, ps: seq<Phase>): Wants
  {
    j.want + map u | u in (set n | n in UpTo(|ps|) && At(ps, n).uid !in j.want :: At(ps, n).uid) ::
      WantsOf(ps, Holder(ps, u))
  }

  /** The number of phase `u`. */
  function Holder(ps: seq<Phase>, u: nat): (n: nat)
    ensures (exists k :: 1 <= k <= |ps| && At(ps, k).uid == u) ==> 1 <= n <= |ps| && At(ps, n).uid == u
  {
    if |ps| == 0 then 1
    else if ps[|ps| - 1].uid == u then |ps|
    else
      assert forall k :: 1 <= k <= |ps| - 1 ==> At(ps, k) == At(ps[..|ps| - 1], k);
      Holder(ps[..|ps| - 1], u)
  }

  ghost function NewPlan(j: Job, kept: nat, drafts: seq<Draft>): Job
  {
    var ps := Compose(j, kept, drafts);
    j.(phases := ps, nextObj := j.nextObj + |ps|, nextUid := j.nextUid + |ps|,
       want := ComposeWants(j, ps), plan := j.plan + 1)
  }

  function KeptOf(j: Job): nat
  {
    if j.replanFrom.Some? then j.replanFrom.value else 0
  }

  /** The Architect's phases, behind the ones that are kept. */
  function Whole(ps: seq<Phase>, kept: nat, drafts: seq<Draft>): seq<Draft>
    requires kept <= |ps|
  {
    seq(kept, i requires 0 <= i < kept => DraftOf(ps[i])) + drafts
  }

  /** `_architecture`: what the Architect answers, asked twice at most, follows the phases kept. */
  ghost function PlanStep(cfg: Config, j: Job, drafts: seq<Draft>): Job
    requires KeptOf(j) <= |j.phases|
  {
    var kept := KeptOf(j);
    var whole := Whole(j.phases, kept, drafts);
    if cfg.maxRejects < j.rejects || !Sound(Compose(j, kept, whole), kept) then FailStep(j)
    else NewPlan(j, kept, whole).(state := AwaitArchitecture, index := kept, work := j.work.(attempts := 0, output := ""))
  }

  /** `set_plan`: a person's edit of the plan at its gate, if it passes the checks. */
  ghost function EditStep(j: Job, drafts: seq<Draft>): Option<Job>
  {
    if j.state == AwaitArchitecture && drafts != [] && Sound(Compose(j, KeptOf(j), drafts), 0)
    then Some(NewPlan(j, KeptOf(j), drafts).(index := KeptOf(j)))
    else None
  }

  // -- what people pushed ---------------------------------------------------------------

  /** `_reconcile`: what the Architect found of each phase left; one it did not name is not done. */
  function ReadStep(j: Job, found: map<nat, bool>): Job
  {
    if j.pause.None? then FailStep(j)
    else
      var start := if j.pause.value.index < |j.phases| then j.pause.value.index else |j.phases|;
      var done := seq(|j.phases| - start, i requires 0 <= i => var n := start + i + 1; n in found && found[n]);
      j.(state := AwaitReconcile, reading := Some(Reading(start, done)))
  }

  function HandLog(ps: seq<Phase>, start: nat, resume: nat): seq<Settled>
    requires start <= resume <= |ps|
  {
    seq(resume - start, i requires 0 <= i < resume - start => ByHand(At(ps, start + i + 1).uid))
  }

  /** `_accept_reconcile`: the unbroken run of finished phases is passed over. */
  function AcceptReading(j: Job): Job
    requires j.reading.Some? && j.reading.value.start + |j.reading.value.done| == |j.phases|
  {
    var start := j.reading.value.start;
    var resume := start + LeadingRun(j.reading.value.done);
    j.(index := resume, work := NO_WORK, gateFixes := 0, log := j.log + HandLog(j.phases, start, resume),
       state := if resume == |j.phases| then Qa else Developing)
  }

  // -- QA and DevOps --------------------------------------------------------------------

  /** What happens each time round QA's second stage: the tests are written, the whole
      project is built, and a red build is blamed on the tests or on the code and fixed. */
  datatype Rounds = Rounds(written: nat -> bool, green: nat -> bool, codeIsWrong: nat -> bool, fixed: nat -> bool)

  /** `_qa_write` from its round `i`; `write` says whether QA writes the tests this round. */
  function QaWriteFrom(cfg: Config, j: Job, rounds: Rounds, i: nat, write: bool): Job
    decreases cfg.maxAttempts - j.work.attempts
  {
    if write && !rounds.written(i) then FailStep(j)
    else if rounds.green(i) then j.(state := AwaitTest, work := j.work.(attempts := 0, output := "", diagnosis := ""))
    else
      var red := j.(work := j.work.(attempts := j.work.attempts + 1));
      if cfg.maxAttempts <= red.work.attempts then FailStep(red)
      else if !rounds.codeIsWrong(i) then QaWriteFrom(cfg, red, rounds, i + 1, true)
      else if !rounds.fixed(i) then FailStep(red)
      else QaWriteFrom(cfg, red, rounds, i + 1, false)
  }

  function QaStep(cfg: Config, j: Job, rounds: Rounds): Job
  {
    if j.qaStage == 1 then j.(state := AwaitTest) else QaWriteFrom(cfg, j, rounds, 0, true)
  }

  /** What the checks of the pull request came to, and whether a red one could be fixed and pushed. */
  datatype Ci = CiPassed | CiPending | CiRed(fixed: bool)

  datatype Shipping = Shipping(proposed: bool, ci: nat -> Ci)

  /** The pull request is open: its checks are waited for, and red ones fixed, as often as
      that is allowed. */
  function ShipFrom(cfg: Config, j: Job, ci: nat -> Ci, i: nat): Job
    decreases cfg.maxCiAttempts - j.ciAttempts
  {
    match ci(i)
    case CiPassed => j.(state := Done)
    case CiPending => FailStep(j)
    case CiRed(fixed) =>
      var red := j.(ciAttempts := j.ciAttempts + 1);
      if cfg.maxCiAttempts < red.ciAttempts || !fixed then FailStep(red) else ShipFrom(cfg, red, ci, i + 1)
  }

  /** `_devops`: a deployment is proposed first, unless there is nothing to deploy. */
  function ShipStep(cfg: Config, j: Job, shipping: Shipping): Job
  {
    if shipping.proposed && j.devopsStage == 1 then j.(state := AwaitDeploy)
    else ShipFrom(cfg, j.(devopsStage := 2), shipping.ci, 0)
  }

  // -- what people decide ---------------------------------------------------------------

  /** Where an answered question leads back to. */
  function ResumeOf(j: Job): State
  {
    if j.resume.Some? then j.resume.value else Developing
  }

  /** `approve`: `drawing` says whether the plan has screens to draw, `empty` that there is
      nothing at this gate to approve. */
  function ApproveStep(j: Job, drawing: bool, empty: bool): Option<Job>
  {
    var k := j.(rejects := 0);
    match j.state
    case AwaitBacklog => Some(k.(state := Architecture))
    case AwaitArchitecture =>
      Some(k.(state := if drawing then Design else Developing, replanFrom := None, approved := j.plan))
    case AwaitDesign => if empty then None else Some(k.(state := Developing))
    case AwaitReview =>
      Some(k.(work := j.work.(violations := 0, rounds := 0), state := if |j.phases| <= j.index then Qa else Developing))
    case AwaitTest =>
      if j.qaStage == 1 then
        if empty then None else Some(k.(qaStage := 2, work := j.work.(attempts := 0, output := ""), state := Qa))
      else Some(k.(state := DevOps))
    case AwaitDeploy => if empty then None else Some(k.(devopsStage := 2, state := DevOps))
    case AwaitReconcile =>
      if j.reading.Some? && j.reading.value.start + |j.reading.value.done| == |j.phases| then Some(AcceptReading(k)) else None
    case AwaitDecision => if j.budgetStop then None else Some(k.(state := ResumeOf(j), resume := None))
    case _ => None
  }

  function Counted(j: Job): Job
  {
    j.(autoApprovals := j.autoApprovals + 1)
  }

  /** `_supervise`: an approval in a person's stead, while any are left. It is counted first,
      and stays counted where there is nothing to approve. */
  function AutoStep(cfg: Config, j: Job, drawing: bool, empty: bool): Option<Job>
  {
    if Approval(j.state) && j.state != AwaitDecision && j.autoApprovals < cfg.cap
    then Some(OrElse(ApproveStep(Counted(j), drawing, empty), Counted(j)))
    else None
  }

  function OrElse(k: Option<Job>, j: Job): Job
  {
    if k.Some? then k.value else j
  }

  /** `reject`. */
  function RejectStep(j: Job): Option<Job>
  {
    var k := j.(rejects := j.rejects + 1);
    match j.state
    case AwaitBacklog => Some(k.(state := Backlog))
    case AwaitArchitecture => Some(k.(state := Architecture))
    case AwaitDesign => Some(k.(state := Design, rejects := 0))
    case AwaitReview =>
      Some(k.(state := Developing, index := if j.index == 0 then 0 else j.index - 1, work := j.work.(rounds := 0), rejects := 0))
    case AwaitTest => Some(k.(state := Qa))
    case AwaitDeploy => Some(k.(state := DevOps))
    case AwaitReconcile => Some(k.(state := Reconcile))
    case AwaitDecision =>
      var answered := k.(state := ResumeOf(j), resume := None, rejects := 0);
      Some(if j.budgetStop then answered.(budgetStop := false, work := j.work.(calls := 0, attempts := 0)) else answered)
    case _ => None
  }

  /** Where a paused development is, seen through a decision it waited for. */
  function BackOf(j: Job): State
    requires j.pause.Some?
  {
    if j.pause.value.from == AwaitDecision then ResumeOf(j) else j.pause.value.from
  }

  /** `carry_on`: `brought` says whether a pull brought anything. */
  function CarryOnStep(j: Job, brought: bool): Option<Job>
  {
    if j.state != Paused || j.pause.None? then None
    else if brought && BuildingState(BackOf(j)) && j.pause.value.index < |j.phases| then
      Some(j.(state := Reconcile, reading := None))
    else Some(j.(state := j.pause.value.from))
  }

  /** `redirect`: the plan is made again from the phase in turn. */
  function RedirectStep(j: Job): Option<Job>
  {
    if Redirectable(j.state) && 0 < j.plan
    then Some(ReplanFromStep(j.(resume := None), if j.index < |j.phases| then j.index else |j.phases|))
    else None
  }

  /** `retry`. */
  function RetryStep(j: Job): Option<Job>
  {
    if j.state != Failed then None
    else Some(j.(
      state := if j.failedFrom == BuildGate then Developing else if Working(j.failedFrom) then j.failedFrom else Backlog,
      work := j.work.(attempts := 0, rounds := 0, output := ""), rejects := 0, ciAttempts := 0))
  }

  /** `replan`: back to the backlog, and every phase is walked again. */
  function StartOverStep(j: Job): Option<Job>
  {
    if j.state != Failed then None
    else Some(j.(state := Backlog, replanFrom := None, index := 0, rejects := 0, qaStage := 1, ciAttempts := 0,
                 work := j.work.(attempts := 0, rounds := 0, output := "", violations := 0)))
  }

  // -- all of it ------------------------------------------------------------------------

  datatype Event =
    // what the handlers of the run loop come to
    | BacklogWritten(combined: bool)
    | PlanWritten(drafts: seq<Draft>)
    | ScreensDrawn
    | PhaseTurn(here: set<Platform>, screens: bool, fits: bool, answer: Answer)
    | GateRun(builds: Builds)
    | PhaseReviewed(blocking: nat, enforced: bool)
    | TestsTurn(rounds: Rounds)
    | ShippingTurn(shipping: Shipping)
    | PhasesRead(found: map<nat, bool>)
    | HandlerFailed
    | HandlerLooped
    | AutoApproved(drawing: bool, empty: bool)
    // what people do
    | Started
    | Approved(drawing: bool, empty: bool)
    | Rejected
    | TestsSkipped
    | DeploymentSkipped
    | ScreensAnswered(sentBack: bool)
    | PlanEdited(edited: seq<Draft>)
    | PausePressed
    | CarriedOn(brought: bool)
    | CancelPressed
    | Redirected
    | PhaseReplanned
    | Retried
    | StartedOver
    | Steered(number: nat)
    // the supervisor's approval, counted where somebody else had acted in the meantime
    | AutoMissed
    // a machine that can build what is left
    | BuilderCame(arrived: set<Platform>)

  /** The turn ends with phase in turn set aside, once that is one that can be built, if any is left. */
  ghost predicate Parks(j: Job, e: Event)
    requires e.PhaseTurn? && j.index < |j.phases|
  {
    BuildableHere(InTurn(j), e.here) && !e.screens && e.answer.Spent? && SomeFree(j)
  }

  /** What happens with nobody there. */
  predicate Unattended(e: Event)
  {
    || e.BacklogWritten? || e.PlanWritten? || e.ScreensDrawn? || e.PhaseTurn? || e.GateRun? || e.PhaseReviewed?
    || e.TestsTurn? || e.ShippingTurn? || e.PhasesRead? || e.HandlerFailed? || e.HandlerLooped? || e.AutoApproved?
  }

  function When(b: bool, j: Job): Option<Job>
  {
    if b then Some(j) else None
  }

  /** The development after an event, or None where the engine refuses it or cannot meet it. */
  ghost function Next(cfg: Config, j: Job, e: Event): Option<Job>
  {
    match e
    case BacklogWritten(combined) =>
      When(j.state == Backlog,
           if cfg.maxRejects < j.rejects then FailStep(j) else j.(state := if combined then Architecture else AwaitBacklog))
    case PlanWritten(drafts) => if j.state == Architecture && KeptOf(j) <= |j.phases| then Some(PlanStep(cfg, j, drafts)) else None
    case ScreensDrawn => When(j.state == Design, j.(state := Developing))
    case PhaseTurn(here, screens, fits, answer) => When(j.state == Developing, DevelopStep(cfg.filing, j, here, screens, fits, answer))
    case GateRun(builds) =>
      if j.state == BuildGate && j.index < |j.phases| then Some(GateStep(cfg, j, GateOf(cfg, j, builds))) else None
    case PhaseReviewed(blocking, enforced) => When(j.state == Review, ReviewStep(cfg, j, blocking, enforced))
    case TestsTurn(rounds) => When(j.state == Qa, QaStep(cfg, j, rounds))
    case ShippingTurn(shipping) => When(j.state == DevOps, ShipStep(cfg, j, shipping))
    case PhasesRead(found) => When(j.state == Reconcile, ReadStep(j, found))
    case HandlerFailed => When(Working(j.state), FailStep(j))
    case HandlerLooped =>
      When(Working(j.state) && j.state != BuildGate && j.state != Review, AskStep(j, j.state))
    case AutoApproved(drawing, empty) => AutoStep(cfg, j, drawing, empty)
    case Started => When(j.state == Created, j.(state := Backlog))
    case Approved(drawing, empty) => ApproveStep(j, drawing, empty)
    case Rejected => RejectStep(j)
    case TestsSkipped => When(j.state == AwaitTest && j.qaStage == 1, j.(state := DevOps, rejects := 0))
    case DeploymentSkipped => When(j.state == AwaitDeploy, j.(state := DevOps, devopsStage := 2, rejects := 0))
    case ScreensAnswered(sentBack) => When(j.state == AwaitDesign, j.(state := if sentBack then Design else Developing))
    case PlanEdited(edited) => EditStep(j, edited)
    case PausePressed => When(Pausable(j.state), j.(state := Paused, pause := Some(Pause(j.state, j.index))))
    case CarriedOn(brought) => CarryOnStep(j, brought)
    case CancelPressed => When(!Terminal(j.state), j.(state := Cancelled))
    case Redirected => RedirectStep(j)
    case PhaseReplanned =>
      When(j.state == AwaitDecision && j.budgetStop, ReplanFromStep(j.(resume := None), j.index))
    case Retried => RetryStep(j)
    case StartedOver => StartOverStep(j)
    case Steered(number) => When(!Terminal(j.state), j.(unread := j.unread + multiset{number}))
    case AutoMissed => When(j.autoApprovals < cfg.cap, Counted(j))
    case BuilderCame(arrived) =>
      if j.state == AwaitBuilder && j.index < |j.phases| && BuildableHere(InTurn(j), arrived)
      then Some(j.(state := j.builderResume)) else None
  }
}
