/**
 What a run with nobody there takes in, round by round (`_run`, slipwright/engine.py), and
 the development after so many rounds of it.
 */
module RunLoop {
  import opened Wrappers
  import opened Plan
  import opened Reordering
  import opened Job
  import opened Safety
  import opened Termination

  datatype Mishap = Nothing | Crashes | Loops

  /** Whatever the models answer and the builds come to in one round, for whichever handler
      it is, and what the supervisor makes of a gate. */
  datatype Input = Input(
    mishap: Mishap,
    combined: bool,
    drafts: seq<Draft>,
    here: set<Platform>,
    screens: bool,
    fits: bool,
    answer: Answer,
    builds: Builds,
    blocking: nat,
    enforced: bool,
    rounds: Rounds,
    shipping: Shipping,
    found: map<nat, bool>,
    approves: bool,
    drawing: bool,
    empty: bool)

  /** What the handler of state `s` makes of it. */
  function EventOf(s: State, t: Input): Event
  {
    if t.mishap == Crashes then HandlerFailed
    else if t.mishap == Loops && s != BuildGate && s != Review then HandlerLooped
    else match s
      case Backlog => BacklogWritten(t.combined)
      case Architecture => PlanWritten(t.drafts)
      case Design => ScreensDrawn
      case Developing => PhaseTurn(t.here, t.screens, t.fits, t.answer)
      case BuildGate => GateRun(t.builds)
      case Review => PhaseReviewed(t.blocking, t.enforced)
      case Qa => TestsTurn(t.rounds)
      case DevOps => ShippingTurn(t.shipping)
      case Reconcile => PhasesRead(t.found)
      case _ => HandlerFailed
  }

  /** In every state the run loop has a handler for, whatever comes in is something that
      handler can go on from: no run is stuck in one. */
  lemma {:induction false} HandlerGoesOn(cfg: Config, j: Job, t: Input)
    requires Inv(cfg, j) && Working(j.state)
    ensures Unattended(EventOf(j.state, t)) && Next(cfg, j, EventOf(j.state, t)).Some?
  {
    assert j.state == Architecture && j.replanFrom.Some? ==> SettledUpTo(j, j.replanFrom.value);
  }

  /** One round: a handler's, or the supervisor's at a gate where it approves. */
  ghost function Round(cfg: Config, j: Job, t: Input): Job
  {
    if Working(j.state) then OrElse(Next(cfg, j, EventOf(j.state, t)), j)
    else if t.approves then OrElse(Next(cfg, j, AutoApproved(t.drawing, t.empty)), j)
    else j
  }

  ghost function After(cfg: Config, j: Job, inputs: nat -> Input, n: nat): Job
  {
    if n == 0 then j else Round(cfg, After(cfg, j, inputs, n - 1), inputs(n - 1))
  }

  /** Whenever a handler runs, what it relies on others for is so. */
  ghost predicate TrustedAt(cfg: Config, j: Job, inputs: nat -> Input, n: nat)
  {
    var k := After(cfg, j, inputs, n);
    Working(k.state) ==> Trusted(k, EventOf(k.state, inputs(n)))
  }

  ghost predicate AllTrusted(cfg: Config, j: Job, inputs: nat -> Input)
  {
    forall n: nat :: TrustedAt(cfg, j, inputs, n)
  }

  /** A round of a handler leaves less to do. */
  lemma {:induction false} RoundLeaves(cfg: Config, j: Job, t: Input)
    requires cfg.filing.ByPhase? && Inv(cfg, j) && Working(j.state) && Trusted(j, EventOf(j.state, t))
    ensures Inv(cfg, Round(cfg, j, t)) && Below(LeftTo(cfg, Round(cfg, j, t)), LeftTo(cfg, j))
  {
    HandlerGoesOn(cfg, j, t);
    StepLeaves(cfg, j, EventOf(j.state, t), Round(cfg, j, t));
  }

  /** A round of the supervisor leaves less to do, or nothing changes. */
  lemma {:induction false} GateRoundLeaves(cfg: Config, j: Job, t: Input)
    requires cfg.filing.ByPhase? && Inv(cfg, j) && !Working(j.state)
    ensures Inv(cfg, Round(cfg, j, t))
    ensures Round(cfg, j, t) == j || Below(LeftTo(cfg, Round(cfg, j, t)), LeftTo(cfg, j))
  {
    var e := AutoApproved(t.drawing, t.empty);
    if t.approves && Next(cfg, j, e).Some? {
      StepLeaves(cfg, j, e, Round(cfg, j, t));
    }
  }

  lemma {:induction false} BelowTwice(a: Left, b: Left, c: Left)
    requires Below(a, b) && Below(b, c)
    ensures Below(a, c)
  {
  }

  /** So with nobody there it reaches a gate or an end, and is as it has to be there. */
  lemma {:induction false} ReachesRest(cfg: Config, j: Job, inputs: nat -> Input, n: nat)
    requires cfg.filing.ByPhase? && AllTrusted(cfg, j, inputs) && Inv(cfg, After(cfg, j, inputs, n))
    ensures exists m: nat :: n <= m && Inv(cfg, After(cfg, j, inputs, m)) && !Working(After(cfg, j, inputs, m).state)
    decreases
      LeftTo(cfg, After(cfg, j, inputs, n)).approvals, LeftTo(cfg, After(cfg, j, inputs, n)).rank,
      LeftTo(cfg, After(cfg, j, inputs, n)).unsettled, LeftTo(cfg, After(cfg, j, inputs, n)).open,
      LeftTo(cfg, After(cfg, j, inputs, n)).rounds, LeftTo(cfg, After(cfg, j, inputs, n)).turn,
      LeftTo(cfg, After(cfg, j, inputs, n)).unread, LeftTo(cfg, After(cfg, j, inputs, n)).attempts,
      LeftTo(cfg, After(cfg, j, inputs, n)).last
  {
    var k := After(cfg, j, inputs, n);
    if Working(k.state) {
      assert TrustedAt(cfg, j, inputs, n);
      RoundLeaves(cfg, k, inputs(n));
      assert After(cfg, j, inputs, n + 1) == Round(cfg, k, inputs(n));
      ReachesRest(cfg, j, inputs, n + 1);
    }
  }
}
