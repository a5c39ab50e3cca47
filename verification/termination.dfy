/**
 The run loop comes to rest (`_run`, slipwright/engine.py): with nobody there, and records
 that follow their phases, every step leaves it less to do, whatever the models answer.
 */
module Termination {
  import opened Wrappers
  import opened Plan
  import opened Reordering
  import opened Job
  import opened Safety
  import opened Parking

  /** The first phase that may still have to be built again: a phase in review may. */
  function Cursor(j: Job): nat
  {
    if j.state == Review && 0 < j.index then j.index - 1 else j.index
  }

  /** The phases not settled for good that were not set aside yet, by number. */
  ghost function Unset(j: Job): set<nat>
  {
    set n: nat | Cursor(j) < n <= |j.phases| && n !in j.parked
  }

  function Less(a: nat, b: nat): nat
  {
    if b < a then a - b else 0
  }

  function Rank(s: State): nat
  {
    match s
    case Design => 6
    case Developing | BuildGate | Review => 5
    case Qa | DevOps | Reconcile => 4
    case Backlog => 3
    case Architecture => 2
    case _ => 0
  }

  /** What is left to a run that nobody steers, the weightiest first. */
  datatype Left = Left(
    approvals: nat, rank: nat, unsettled: nat, open: nat, rounds: nat, turn: nat, unread: nat, attempts: nat, last: nat)

  /** `open` counts what the phases that are tried in turn have left between them. */
  ghost function LeftBy(cfg: Config, j: Job, open: nat): Left
  {
    Left(
      Less(cfg.cap, j.autoApprovals),
      Rank(j.state),
      Less(|j.phases|, Cursor(j)),
      open,
      Less(cfg.maxRounds, j.work.rounds),
      if j.state == Review then 0 else 1,
      2 * |j.unread| + if j.state == BuildGate && j.index + 1 in j.unread then 1 else 0,
      Less(cfg.maxAttempts, j.work.attempts),
      if j.state == Developing then 1 else 0)
  }

  ghost function LeftTo(cfg: Config, j: Job): Left
  {
    LeftBy(cfg, j, |Unset(j)|)
  }

  /** Less is left, counted from the weightiest on. */
  predicate Below(a: Left, b: Left)
  {
    || a.approvals < b.approvals
    || (a.approvals == b.approvals && (a.rank < b.rank || (a.rank == b.rank && BelowInPhases(a, b))))
  }

  predicate BelowInPhases(a: Left, b: Left)
  {
    || a.unsettled < b.unsettled
    || (a.unsettled == b.unsettled && (a.open < b.open || (a.open == b.open && BelowInPhase(a, b))))
  }

  predicate BelowInPhase(a: Left, b: Left)
  {
    || a.rounds < b.rounds
    || (a.rounds == b.rounds
        && (a.turn < b.turn
            || (a.turn == b.turn
                && (a.unread < b.unread
                    || (a.unread == b.unread
                        && (a.attempts < b.attempts || (a.attempts == b.attempts && a.last < b.last)))))))
  }

  /** Every record past the phase in turn finds its phase again after a move. */
  ghost predicate RecordsFollow(filing: Filing, j: Job)
  {
    forall n: nat :: j.index + 1 < n <= |j.phases| && n in j.parked ==> Survives(filing, At(j.phases, n))
  }

  /** A step nobody has a hand in. */
  ghost predicate SteadyStep(cfg: Config, j: Job, e: Event, k: Job)
  {
    Unattended(e) && Trusted(j, e) && Next(cfg, j, e) == Some(k)
  }

  /** The step sets the phase in turn aside. */
  ghost predicate SetsAside(j: Job, e: Event)
  {
    && e.PhaseTurn? && j.state == Developing && j.index < |j.phases| && j.index + 1 !in j.parked
    && Parks(Ready(j, e.here), e)
  }

  /** Nothing weightier than the phases still open has changed. */
  ghost predicate AsFar(cfg: Config, j: Job, k: Job)
  {
    var a, b := LeftBy(cfg, j, 0), LeftBy(cfg, k, 0);
    a.approvals == b.approvals && a.rank == b.rank && a.unsettled == b.unsettled
  }

  /** How what is still open has to go from `a` to `b`: not up while nothing weightier
      changes, and down where a phase is set aside. */
  ghost predicate Fits(cfg: Config, j: Job, e: Event, k: Job, a: nat, b: nat)
  {
    (AsFar(cfg, j, k) ==> b <= a) && (SetsAside(j, e) ==> b < a)
  }

  // -- setting aside --------------------------------------------------------------------

  lemma {:induction false} SmallerSet<T>(a: set<T>, b: set<T>)
    requires a <= b
    ensures |a| <= |b| && (a != b ==> |a| < |b|)
  {
    var rest := b - a;
    assert b == a + rest;
    if a != b {
      assert exists x :: x in b && x !in a;
      assert rest != {};
    }
  }

  /** The old number of an unbuilt phase of the moved plan. */
  lemma {:induction false} UnbuiltWas(j: Job, later: set<nat>, r: nat) returns (n: nat)
    requires j.index < r <= |j.phases|
    ensures j.index < n <= |j.phases| && n in MoveOf(j, later) && Place(MoveOf(j, later), n) == r
  {
    MovesPermute(|j.phases|, j.index, later);
    var m := MoveOf(j, later);
    n := Was(m, |j.phases|, r);
    if n <= j.index {
      assert m[n - 1] == n;
      SamePlaceNumber(m, n, r);
    }
  }

  lemma {:induction false} SamePlaceNumber(m: seq<nat>, n: nat, r: nat)
    requires Once(m) && n in m && Place(m, n) == r && n <= |m| && 1 <= n && m[n - 1] == n
    ensures r == n
  {
    assert m[r - 1] == n;
  }

  /** What comes first of what is moved: nothing in `later`, while there is something that is not. */
  lemma {:induction false} FirstIsNotLater(j: Job, later: set<nat>, f: nat) returns (w: nat)
    requires Ranged(j.phases) && j.index < f <= |j.phases| && f !in later
    ensures j.index < w <= |j.phases| && w !in later
    ensures At(MovePhases(j, later).phases, j.index + 1).platform == At(j.phases, w).platform
  {
    w := UnbuiltWas(j, later, j.index + 1);
    MovesPermute(|j.phases|, j.index, later);
    MoveNumbers(j.phases, MoveOf(j, later), j.nextObj, w);
    if w in later {
      LaterIsNotFirst(j, later, f, w);
    }
  }

  lemma {:induction false} LaterIsNotFirst(j: Job, later: set<nat>, f: nat, w: nat)
    requires j.index < f <= |j.phases| && f !in later && j.index < w <= |j.phases| && w in later && w in MoveOf(j, later)
    ensures Place(MoveOf(j, later), w) != j.index + 1
  {
    MovesPermute(|j.phases|, j.index, later);
    StaysBehind(MoveOf(j, later), j.index + 1, f);
    if w < f {
      PlaceOrder(|j.phases|, j.index, later, w, f);
    } else {
      PlaceOrder(|j.phases|, j.index, later, f, w);
    }
  }

  lemma {:induction false} UnparkedWas(j: Job, r: nat) returns (n: nat)
    requires j.index < r <= |j.phases|
    ensures j.index < n <= |j.phases| && AfterPark(j, n) == r
  {
    var later := Needing(j.phases, j.index + 1);
    n := UnbuiltWas(j, later, r);
    assert AfterPark(j, n) == Place(MoveOf(j, later), n);
  }

  /** The phases with these numbers. */
  ghost function Numbered(ps: seq<Phase>, s: set<nat>): set<nat>
  {
    set n | n in s && 1 <= n <= |ps| :: At(ps, n).uid
  }

  lemma {:induction false} AsManyPhases(ps: seq<Phase>, nextObj: nat, s: set<nat>)
    requires Distinct(ps, nextObj) && forall n :: n in s ==> 1 <= n <= |ps|
    ensures |Numbered(ps, s)| == |s|
    decreases s
  {
    if s != {} {
      var n :| n in s;
      AsManyPhases(ps, nextObj, s - {n});
      forall k | k in s - {n} ensures At(ps, k).uid != At(ps, n).uid {
        if At(ps, k).uid == At(ps, n).uid {
          SamePhase(ps, nextObj, k, n);
        }
      }
      assert Numbered(ps, s) == Numbered(ps, s - {n}) + {At(ps, n).uid};
    }
  }

  /** Fewer numbers where each is a phase of the others, and one of those is none of them. */
  lemma {:induction false} FewerNumbers(ps: seq<Phase>, qs: seq<Phase>, nextObj: nat, nextNext: nat, s: set<nat>, t: set<nat>, x: nat)
    requires Distinct(ps, nextObj) && Distinct(qs, nextNext) && x in s
    requires (forall n :: n in s ==> 1 <= n <= |ps|) && (forall r :: r in t ==> 1 <= r <= |qs|)
    requires forall r :: r in t ==> exists n :: n in s && n != x && At(ps, n).uid == At(qs, r).uid
    ensures |t| < |s|
  {
    var before, after := Numbered(ps, s), Numbered(qs, t);
    forall v | v in after ensures v in before && v != At(ps, x).uid {
      var r :| r in t && At(qs, r).uid == v;
      var n :| n in s && n != x && At(ps, n).uid == At(qs, r).uid;
      if At(ps, n).uid == At(ps, x).uid {
        SamePhase(ps, nextObj, n, x);
      }
    }
    assert At(ps, x).uid in before && At(ps, x).uid !in after;
    SmallerSet(after, before);
    AsManyPhases(ps, nextObj, s);
    AsManyPhases(qs, nextNext, t);
  }

  /** Every open number of `k` is the phase of an open number of `j`, and never of `x`, which is one too. */
  ghost predicate OpenBefore(j: Job, k: Job, x: nat)
  {
    && Distinct(j.phases, j.nextObj) && Distinct(k.phases, k.nextObj) && x in Unset(j)
    && forall r :: r in Unset(k) ==> 1 <= r <= |k.phases| && IsOpen(j, x, At(k.phases, r).uid)
  }

  ghost predicate IsOpen(j: Job, x: nat, u: nat)
  {
    exists n :: n in Unset(j) && n != x && At(j.phases, n).uid == u
  }

  lemma {:induction false} FewerOpen(j: Job, k: Job, x: nat)
    requires OpenBefore(j, k, x)
    ensures |Unset(k)| < |Unset(j)|
  {
    forall r | r in Unset(k) ensures exists n :: n in Unset(j) && n != x && At(j.phases, n).uid == At(k.phases, r).uid {
      assert IsOpen(j, x, At(k.phases, r).uid);
    }
    FewerNumbers(j.phases, k.phases, j.nextObj, k.nextObj, Unset(j), Unset(k), x);
  }

  lemma {:induction false} ParkLeavesLess(filing: Filing, j: Job, why: string)
    requires Ranged(j.phases) && Distinct(j.phases, j.nextObj) && RecordsFollow(filing, j)
    requires j.state == Developing && j.index < |j.phases| && j.index + 1 !in j.parked
    ensures |Unset(ParkStep(filing, j, why))| < |Unset(j)|
  {
    ParkOpens(filing, j, why);
    FewerOpen(j, ParkStep(filing, j, why), j.index + 1);
  }

  lemma {:induction false} ParkOpens(filing: Filing, j: Job, why: string)
    requires Ranged(j.phases) && Distinct(j.phases, j.nextObj) && RecordsFollow(filing, j)
    requires j.state == Developing && j.index < |j.phases| && j.index + 1 !in j.parked
    ensures OpenBefore(j, ParkStep(filing, j, why), j.index + 1)
  {
    var k := ParkStep(filing, j, why);
    ParkedPlace(filing, j, why);
    DistinctAfter(j);
    forall r | r in Unset(k) ensures 1 <= r <= |k.phases| && IsOpen(j, j.index + 1, At(k.phases, r).uid) {
      OpenWas(filing, j, why, r);
    }
  }

  lemma {:induction false} DistinctAfter(j: Job)
    requires Ranged(j.phases) && Distinct(j.phases, j.nextObj) && j.index < |j.phases|
    ensures Distinct(PhasesAfter(j), j.nextObj + |j.phases|) && Ranged(PhasesAfter(j))
  {
    var later := Needing(j.phases, j.index + 1);
    MovesPermute(|j.phases|, j.index, later);
    ReorderKeepsAll(j.phases, MoveOf(j, later), j.nextObj);
  }

  lemma {:induction false} OpenWas(filing: Filing, j: Job, why: string, r: nat)
    requires Ranged(j.phases) && Distinct(j.phases, j.nextObj) && j.state == Developing && j.index < |j.phases| && RecordsFollow(filing, j)
    requires r in Unset(ParkStep(filing, j, why))
    ensures IsOpen(j, j.index + 1, At(PhasesAfter(j), r).uid)
  {
    ParkedPlace(filing, j, why);
    StillUnset(filing, j, why, r);
    var n: nat :| j.index + 1 < n <= |j.phases| && n !in j.parked && At(j.phases, n).uid == At(PhasesAfter(j), r).uid;
    assert n in Unset(j);
  }

  lemma {:induction false} ParkedPlace(filing: Filing, j: Job, why: string)
    requires j.index < |j.phases|
    ensures var k := ParkStep(filing, j, why); k.state == Developing && k.index == j.index && k.phases == PhasesAfter(j) && k.nextObj == j.nextObj + |j.phases|
  {
    ParkIs(filing, j, why);
  }

  lemma {:induction false} StillUnset(filing: Filing, j: Job, why: string, r: nat)
    requires Ranged(j.phases) && Distinct(j.phases, j.nextObj) && j.index < r <= |j.phases| && RecordsFollow(filing, j)
    requires r !in ParkStep(filing, j, why).parked
    ensures exists n: nat :: j.index + 1 < n <= |j.phases| && n !in j.parked && At(j.phases, n).uid == At(PhasesAfter(j), r).uid
  {
    var n := UnparkedWas(j, r);
    ParkNumbers(j, n);
    ParkFiles(filing, j, why, n);
    assert n != j.index + 1;
    assert At(j.phases, n).uid == At(PhasesAfter(j), r).uid;
  }

  // -- one step -------------------------------------------------------------------------

  lemma {:induction false} FewerUnread(unread: multiset<nat>, n: nat)
    ensures |unread[n := 0]| <= |unread|
    ensures n in unread ==> |unread[n := 0]| < |unread|
  {
    assert unread == unread[n := 0] + multiset{}[n := unread[n]];
  }

  /** Getting a phase in turn that can be built here changes nothing else. */
  lemma {:induction false} ReadyIs(j: Job, here: set<Platform>)
    requires j.index < |j.phases|
    ensures var l := Ready(j, here); l == j.(phases := l.phases, nextObj := l.nextObj) && |l.phases| == |j.phases|
  {
  }

  lemma {:induction false} StopsHere(cfg: Config, j: Job, k: Job, a: nat, b: nat)
    requires k.autoApprovals == j.autoApprovals && Rank(k.state) < Rank(j.state)
    ensures Below(LeftBy(cfg, k, b), LeftBy(cfg, j, a))
  {
  }

  lemma {:induction false} TurnLeaves(cfg: Config, j: Job, e: Event, k: Job, a: nat, b: nat)
    requires e.PhaseTurn? && j.state == Developing && k == DevelopStep(cfg.filing, j, e.here, e.screens, e.fits, e.answer)
    requires Fits(cfg, j, e, k, a, b)
    ensures Below(LeftBy(cfg, k, b), LeftBy(cfg, j, a))
  {
    if |j.phases| <= j.index || j.index + 1 in j.parked {
      StoppedTurn(cfg, j, e, k);
      StopsHere(cfg, j, k, a, b);
    } else {
      DevelopIs(cfg.filing, j, e);
      ReadyIs(j, e.here);
      TriedLeaves(cfg, j, Ready(j, e.here), e, k, a, b);
    }
  }

  lemma {:induction false} TriedLeaves(cfg: Config, j: Job, l: Job, e: Event, k: Job, a: nat, b: nat)
    requires j.state == Developing && j.index < |j.phases| && l == j.(phases := l.phases, nextObj := l.nextObj) && |l.phases| == |j.phases|
    requires e.PhaseTurn? && k == TurnStep(cfg.filing, l, e.here, e.screens, e.answer) && (AsFar(cfg, j, k) ==> b <= a) && (Parks(l, e) ==> b < a)
    ensures Below(LeftBy(cfg, k, b), LeftBy(cfg, j, a))
  {
    if Parks(l, e) {
      LateLeaves(cfg, j, l, e.answer.why, a, b);
    } else {
      AnswerLeaves(cfg, j, l, e, a, b);
    }
  }

  lemma {:induction false} AnswerLeaves(cfg: Config, j: Job, l: Job, e: Event, a: nat, b: nat)
    requires j.state == Developing && j.index < |j.phases| && l == j.(phases := l.phases, nextObj := l.nextObj) && |l.phases| == |j.phases|
    requires e.PhaseTurn? && !Parks(l, e)
    requires AsFar(cfg, j, TurnStep(cfg.filing, l, e.here, e.screens, e.answer)) ==> b <= a
    ensures Below(LeftBy(cfg, TurnStep(cfg.filing, l, e.here, e.screens, e.answer), b), LeftBy(cfg, j, a))
  {
    var k := TurnStep(cfg.filing, l, e.here, e.screens, e.answer);
    if BuildableHere(InTurn(l), e.here) && !e.screens && e.answer.Written? {
      WrittenLeaves(cfg, j, l, k, e.answer.diff, a, b);
    } else {
      StopsHere(cfg, j, k, a, b);
    }
  }

  lemma {:induction false} LateLeaves(cfg: Config, j: Job, l: Job, why: string, a: nat, b: nat)
    requires j.state == Developing && j.index < |j.phases| && l == j.(phases := l.phases, nextObj := l.nextObj) && |l.phases| == |j.phases| && b < a
    ensures Below(LeftBy(cfg, ParkStep(cfg.filing, l, why), b), LeftBy(cfg, j, a))
  {
    ParkedPlace(cfg.filing, l, why);
    ParkOnlyFiles(cfg.filing, l, why);
    AsideLeaves(cfg, j, ParkStep(cfg.filing, l, why), a, b);
  }

  lemma {:induction false} AsideLeaves(cfg: Config, j: Job, k: Job, a: nat, b: nat)
    requires j.state == k.state == Developing && k.index == j.index && |k.phases| == |j.phases| && k.autoApprovals == j.autoApprovals && b < a
    ensures Below(LeftBy(cfg, k, b), LeftBy(cfg, j, a))
  {
  }

  lemma {:induction false} WrittenLeaves(cfg: Config, j: Job, l: Job, k: Job, diff: string, a: nat, b: nat)
    requires j.state == Developing && j.index < |j.phases| && l == j.(phases := l.phases, nextObj := l.nextObj) && |l.phases| == |j.phases|
    requires k == l.(state := BuildGate, wip := diff, unread := l.unread[l.index + 1 := 0]) && (AsFar(cfg, j, k) ==> b <= a)
    ensures Below(LeftBy(cfg, k, b), LeftBy(cfg, j, a))
  {
    FewerUnread(j.unread, j.index + 1);
  }

  /** What is still open does not go up in a step that leaves the phases where they are. */
  ghost predicate NotUp(cfg: Config, j: Job, k: Job, a: nat, b: nat)
  {
    AsFar(cfg, j, k) ==> b <= a
  }

  lemma {:induction false} RedLeaves(cfg: Config, j: Job, gate: Gate, a: nat, b: nat)
    requires j.state == BuildGate && j.index < |j.phases| && gate.Red? && NotUp(cfg, j, GateStep(cfg, j, gate), a, b)
    ensures Below(LeftBy(cfg, GateStep(cfg, j, gate), b), LeftBy(cfg, j, a))
  {
    if GateStep(cfg, j, gate).state != Developing {
      StopsHere(cfg, j, GateStep(cfg, j, gate), a, b);
    }
  }

  lemma {:induction false} GateLeaves(cfg: Config, j: Job, gate: Gate, a: nat, b: nat)
    requires j.state == BuildGate && j.index < |j.phases| && NotUp(cfg, j, GateStep(cfg, j, gate), a, b)
    ensures Below(LeftBy(cfg, GateStep(cfg, j, gate), b), LeftBy(cfg, j, a))
  {
    match gate
    case Green(wip, review) =>
    case Red(_, _, _, _, _) => RedLeaves(cfg, j, gate, a, b);
    case Lost(_, _, _) => StopsHere(cfg, j, GateStep(cfg, j, gate), a, b);
  }

  lemma {:induction false} ReviewLeaves(cfg: Config, j: Job, blocking: nat, enforced: bool, a: nat, b: nat)
    requires j.state == Review && 0 < j.index <= |j.phases| && NotUp(cfg, j, ReviewStep(cfg, j, blocking, enforced), a, b)
    ensures Below(LeftBy(cfg, ReviewStep(cfg, j, blocking, enforced), b), LeftBy(cfg, j, a))
  {
  }

  lemma {:induction false} OthersLeave(cfg: Config, j: Job, e: Event, a: nat, b: nat)
    requires Placed(j) && Unattended(e) && Next(cfg, j, e).Some? && !e.PhaseTurn? && !e.GateRun? && !e.PhaseReviewed?
    requires !e.AutoApproved? && !e.TestsTurn? && !e.ShippingTurn?
    ensures Below(LeftBy(cfg, Next(cfg, j, e).value, b), LeftBy(cfg, j, a))
  {
    if e.HandlerFailed? || e.HandlerLooped? {
      HaltLeaves(cfg, j, e);
    } else {
      PlannersLeave(cfg, j, e);
    }
    StopsHere(cfg, j, Next(cfg, j, e).value, a, b);
  }

  lemma {:induction false} HaltLeaves(cfg: Config, j: Job, e: Event)
    requires (e.HandlerFailed? || e.HandlerLooped?) && Next(cfg, j, e).Some?
    ensures var k := Next(cfg, j, e).value; k.autoApprovals == j.autoApprovals && Rank(k.state) < Rank(j.state)
  {
  }

  lemma {:induction false} PlanLeaves(cfg: Config, j: Job, drafts: seq<Draft>)
    requires j.state == Architecture && KeptOf(j) <= |j.phases|
    ensures var k := PlanStep(cfg, j, drafts); k.autoApprovals == j.autoApprovals && Rank(k.state) < Rank(j.state)
  {
  }

  lemma {:induction false} PlannersLeave(cfg: Config, j: Job, e: Event)
    requires (e.BacklogWritten? || e.PlanWritten? || e.ScreensDrawn? || e.PhasesRead?) && Next(cfg, j, e).Some?
    ensures var k := Next(cfg, j, e).value; k.autoApprovals == j.autoApprovals && Rank(k.state) < Rank(j.state)
  {
    if e.PlanWritten? {
      PlanLeaves(cfg, j, e.drafts);
    }
  }

  lemma {:induction false} ApprovalLeaves(cfg: Config, j: Job, k: Job, a: nat, b: nat)
    requires k.autoApprovals == j.autoApprovals + 1 <= cfg.cap
    ensures Below(LeftBy(cfg, k, b), LeftBy(cfg, j, a))
  {
  }

  lemma {:induction false} TestsLeave(cfg: Config, j: Job, rounds: Rounds, a: nat, b: nat)
    requires j.state == Qa
    ensures Below(LeftBy(cfg, QaStep(cfg, j, rounds), b), LeftBy(cfg, j, a))
  {
    QaWriteKeeps(cfg, j, rounds, 0, true);
    StopsHere(cfg, j, QaStep(cfg, j, rounds), a, b);
  }

  lemma {:induction false} ShippingLeaves(cfg: Config, j: Job, shipping: Shipping, a: nat, b: nat)
    requires j.state == DevOps
    ensures Below(LeftBy(cfg, ShipStep(cfg, j, shipping), b), LeftBy(cfg, j, a))
  {
    ShipFromKeeps(cfg, j.(devopsStage := 2), shipping.ci, 0);
    StopsHere(cfg, j, ShipStep(cfg, j, shipping), a, b);
  }

  /** Every step with nobody there leaves less to do, as long as what is still open goes as it
      has to, whether or not what the engine relies on others for is so. */
  lemma {:induction false} StepLeavesBy(cfg: Config, j: Job, e: Event, k: Job, a: nat, b: nat)
    requires Placed(j) && Unattended(e) && Next(cfg, j, e) == Some(k) && Fits(cfg, j, e, k, a, b)
    ensures Below(LeftBy(cfg, k, b), LeftBy(cfg, j, a))
  {
    if e.PhaseTurn? {
      TurnLeaves(cfg, j, e, k, a, b);
    } else if e.GateRun? || e.PhaseReviewed? {
      PhaseLeaves(cfg, j, e, k, a, b);
    } else {
      RestLeaves(cfg, j, e, k, a, b);
    }
  }

  lemma {:induction false} PhaseLeaves(cfg: Config, j: Job, e: Event, k: Job, a: nat, b: nat)
    requires Placed(j) && (e.GateRun? || e.PhaseReviewed?) && Next(cfg, j, e) == Some(k) && NotUp(cfg, j, k, a, b)
    ensures Below(LeftBy(cfg, k, b), LeftBy(cfg, j, a))
  {
    match e
    case GateRun(builds) => GateLeaves(cfg, j, GateOf(cfg, j, builds), a, b);
    case PhaseReviewed(blocking, enforced) => ReviewLeaves(cfg, j, blocking, enforced, a, b);
  }

  lemma {:induction false} RestLeaves(cfg: Config, j: Job, e: Event, k: Job, a: nat, b: nat)
    requires Placed(j) && Unattended(e) && !e.PhaseTurn? && !e.GateRun? && !e.PhaseReviewed? && Next(cfg, j, e) == Some(k)
    ensures Below(LeftBy(cfg, k, b), LeftBy(cfg, j, a))
  {
    match e
    case TestsTurn(rounds) => TestsLeave(cfg, j, rounds, a, b);
    case ShippingTurn(shipping) => ShippingLeaves(cfg, j, shipping, a, b);
    case AutoApproved(drawing, empty) =>
      AutoCounts(cfg, j, drawing, empty);
      ApprovalLeaves(cfg, j, k, a, b);
    case _ => OthersLeave(cfg, j, e, a, b);
  }

  lemma {:induction false} AutoCounts(cfg: Config, j: Job, drawing: bool, empty: bool)
    requires Placed(j) && AutoStep(cfg, j, drawing, empty).Some?
    ensures AutoStep(cfg, j, drawing, empty).value.autoApprovals == j.autoApprovals + 1 <= cfg.cap
  {
    CountedPlaced(j, Counted(j));
    if ApproveStep(Counted(j), drawing, empty).Some? {
      if j.state == AwaitReconcile {
        AcceptPlaced(Counted(j), drawing, empty);
      } else {
        ApproveStays(Counted(j), drawing, empty);
      }
    }
  }

  // -- records that follow their phases ---------------------------------------------------

  /** A development whose phases and records are there once, wherever they stand. */
  ghost predicate Loose(j: Job)
  {
    Ranged(j.phases) && Distinct(j.phases, j.nextObj) && Placed(j)
  }

  /** The phases set aside so far are what is still open, the other way round: moving phases
      about files no record and takes none away. */
  lemma {:induction false} UnsetFits(cfg: Config, j: Job, e: Event, k: Job)
    requires cfg.filing.ByPhase? && Loose(j) && Unattended(e) && Next(cfg, j, e) == Some(k)
    ensures Fits(cfg, j, e, k, |Unset(j)|, |Unset(k)|)
  {
    if e.PhaseTurn? {
      TurnFits(cfg, j, e, k);
    } else if e.PlanWritten? {
      PlanStopsHere(cfg, j, e, k);
    } else {
      PhasesLeft(cfg, j, e);
      SameOpen(cfg, j, k);
    }
  }

  lemma {:induction false} SameOpen(cfg: Config, j: Job, k: Job)
    requires k.phases == j.phases && k.parked == j.parked
    ensures AsFar(cfg, j, k) ==> Unset(k) == Unset(j)
  {
  }

  lemma {:induction false} PlanStopsHere(cfg: Config, j: Job, e: Event, k: Job)
    requires e.PlanWritten? && Next(cfg, j, e) == Some(k)
    ensures !AsFar(cfg, j, k)
  {
  }

  lemma {:induction false} TurnFits(cfg: Config, j: Job, e: Event, k: Job)
    requires cfg.filing.ByPhase? && Loose(j) && e.PhaseTurn? && j.state == Developing
    requires k == DevelopStep(cfg.filing, j, e.here, e.screens, e.fits, e.answer)
    ensures Fits(cfg, j, e, k, |Unset(j)|, |Unset(k)|)
  {
    if |j.phases| <= j.index || j.index + 1 in j.parked {
      StoppedTurn(cfg, j, e, k);
    } else {
      DevelopIs(cfg.filing, j, e);
      ReadyLoose(j, e.here);
      ReadyIs(j, e.here);
      TriedFits(cfg, j, Ready(j, e.here), e);
    }
  }

  /** The phase in turn is put to a person, or there is none. */
  lemma {:induction false} StoppedTurn(cfg: Config, j: Job, e: Event, k: Job)
    requires e.PhaseTurn? && j.state == Developing && k == DevelopStep(cfg.filing, j, e.here, e.screens, e.fits, e.answer)
    requires |j.phases| <= j.index || j.index + 1 in j.parked
    ensures Rank(k.state) < Rank(j.state) && k.autoApprovals == j.autoApprovals
  {
  }

  lemma {:induction false} TriedFits(cfg: Config, j: Job, l: Job, e: Event)
    requires cfg.filing.ByPhase? && Ranged(l.phases) && Distinct(l.phases, l.nextObj) && e.PhaseTurn? && j.state == Developing
    requires j.index < |j.phases| && l == j.(phases := l.phases, nextObj := l.nextObj) && |l.phases| == |j.phases| && j.index + 1 !in j.parked
    ensures var k := TurnStep(cfg.filing, l, e.here, e.screens, e.answer);
      |Unset(k)| <= |Unset(j)| && (Parks(l, e) ==> |Unset(k)| < |Unset(j)|)
  {
    SameUnset(j, l);
    LeastFits(cfg, l, e);
  }

  lemma {:induction false} ReadyLoose(j: Job, here: set<Platform>)
    requires Ranged(j.phases) && Distinct(j.phases, j.nextObj) && j.index < |j.phases|
    ensures Ranged(Ready(j, here).phases) && Distinct(Ready(j, here).phases, Ready(j, here).nextObj)
  {
    var later := Unbuildable(j.phases, j.index, here);
    MovesPermute(|j.phases|, j.index, later);
    ReorderKeepsAll(j.phases, MoveOf(j, later), j.nextObj);
  }

  /** A turn sets one phase more aside, or leaves the records where they are. */
  lemma {:induction false} LeastFits(cfg: Config, l: Job, e: Event)
    requires cfg.filing.ByPhase? && Ranged(l.phases) && Distinct(l.phases, l.nextObj)
    requires l.state == Developing && l.index < |l.phases| && l.index + 1 !in l.parked && e.PhaseTurn?
    ensures var k := TurnStep(cfg.filing, l, e.here, e.screens, e.answer);
      if Parks(l, e) then |Unset(k)| < |Unset(l)|
      else |Unset(k)| == |Unset(l)|
  {
    if Parks(l, e) {
      ParkLeavesLess(cfg.filing, l, e.answer.why);
    } else {
      NotParkedLeaves(cfg.filing, l, e);
      SameUnset(l, TurnStep(cfg.filing, l, e.here, e.screens, e.answer));
    }
  }

  lemma {:induction false} SameUnset(j: Job, k: Job)
    requires j.state == Developing && k.state != Review && k.index == j.index && |k.phases| == |j.phases| && k.parked == j.parked
    ensures Unset(k) == Unset(j)
  {
  }

  /** Where records follow their phases, every step nobody has a hand in leaves less to do. */
  lemma {:induction false} StepLeaves(cfg: Config, j: Job, e: Event, k: Job)
    requires cfg.filing.ByPhase? && Inv(cfg, j) && SteadyStep(cfg, j, e, k)
    ensures Inv(cfg, k) && Below(LeftTo(cfg, k), LeftTo(cfg, j))
  {
    StepKeeps(cfg, j, e);
    UnsetFits(cfg, j, e, k);
    StepLeavesBy(cfg, j, e, k, |Unset(j)|, |Unset(k)|);
  }

  /** No run goes on for ever in such steps. */
  lemma {:induction false} RunStops(cfg: Config, run: nat -> Job, events: nat -> Event, from: nat)
    requires cfg.filing.ByPhase? && Inv(cfg, run(from))
    ensures exists i: nat :: from <= i && !SteadyStep(cfg, run(i), events(i), run(i + 1))
    decreases
      LeftTo(cfg, run(from)).approvals, LeftTo(cfg, run(from)).rank, LeftTo(cfg, run(from)).unsettled,
      LeftTo(cfg, run(from)).open, LeftTo(cfg, run(from)).rounds, LeftTo(cfg, run(from)).turn,
      LeftTo(cfg, run(from)).unread, LeftTo(cfg, run(from)).attempts, LeftTo(cfg, run(from)).last
  {
    if SteadyStep(cfg, run(from), events(from), run(from + 1)) {
      StepLeaves(cfg, run(from), events(from), run(from + 1));
      RunStops(cfg, run, events, from + 1);
    }
  }

  /** Nothing leaves less and less for ever. */
  lemma {:induction false} LessForEver(cfg: Config, run: nat -> Job, open: nat -> nat, from: nat)
    requires forall i: nat :: from <= i ==> Below(LeftBy(cfg, run(i + 1), open(i + 1)), LeftBy(cfg, run(i), open(i)))
    ensures false
    decreases
      LeftBy(cfg, run(from), open(from)).approvals, LeftBy(cfg, run(from), open(from)).rank,
      LeftBy(cfg, run(from), open(from)).unsettled, LeftBy(cfg, run(from), open(from)).open,
      LeftBy(cfg, run(from), open(from)).rounds, LeftBy(cfg, run(from), open(from)).turn,
      LeftBy(cfg, run(from), open(from)).unread, LeftBy(cfg, run(from), open(from)).attempts,
      LeftBy(cfg, run(from), open(from)).last
  {
    assert Below(LeftBy(cfg, run(from + 1), open(from + 1)), LeftBy(cfg, run(from), open(from)));
    LessForEver(cfg, run, open, from + 1);
  }
}
