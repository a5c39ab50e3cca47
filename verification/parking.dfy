/**
 What becomes of the record of a phase set aside (`_park`, `_unpark`, slipwright/engine.py).

 The code looks a record up again by the identity of the phase's dictionary, and the move
 builds a new dictionary for every phase that names what it needs. So a record survives the
 next move exactly when its phase names nothing; filed by the phase itself, it always does.
 */
module Parking {
  import opened Wrappers
  import opened Plan
  import opened Reordering
  import opened Job
  import opened Safety

  /** A record finds its phase again after a move. */
  predicate Survives(filing: Filing, p: Phase)
  {
    filing.ByPhase? || p.needs.None?
  }

  lemma {:induction false} MovingIs(filing: Filing, ps: seq<Phase>, nextObj: nat, parked: Parked, lo: nat, n: nat)
    requires Distinct(ps, nextObj) && 1 <= lo && 1 <= n <= |ps|
    ensures var moving := Moving(filing, ps, parked, lo);
      (KeyOf(filing, At(ps, n)) in moving <==> lo <= n && n in parked)
      && (lo <= n && n in parked ==> moving[KeyOf(filing, At(ps, n))] == parked[n])
    ensures forall x :: x in Moving(filing, ps, parked, lo) ==> Keyed(filing, ps, lo, x)
    decreases |ps| + 1 - lo
  {
    if lo <= |ps| {
      MovingIs(filing, ps, nextObj, parked, lo + 1, n);
      if KeyOf(filing, At(ps, lo)) == KeyOf(filing, At(ps, n)) {
        SamePhase(ps, nextObj, lo, n);
      }
    }
  }

  lemma {:induction false} LandedIs(filing: Filing, qs: seq<Phase>, moving: Parked, n: nat)
    requires n <= |qs|
    ensures forall k: nat :: k in Landed(filing, qs, moving, n) <==> 1 <= k <= n && KeyOf(filing, At(qs, k)) in moving
    ensures forall k: nat :: k in Landed(filing, qs, moving, n) ==> Landed(filing, qs, moving, n)[k] == moving[KeyOf(filing, At(qs, k))]
  {
    if n != 0 {
      LandedIs(filing, qs, moving, n - 1);
    }
  }

  ghost predicate Keyed(filing: Filing, ps: seq<Phase>, lo: nat, x: nat)
  {
    exists n: nat :: 1 <= n && lo <= n <= |ps| && KeyOf(filing, At(ps, n)) == x
  }

  lemma {:induction false} StaysBehind(m: seq<nat>, lo: nat, n: nat)
    requires n in m && 1 <= lo <= n && forall k: nat :: k < lo - 1 && k < |m| ==> m[k] == k + 1
    ensures lo <= Place(m, n)
  {
    assert m[Place(m, n) - 1] == n;
  }

  /** A record built anew by the move is the record of no phase that stood in the plan. */
  lemma {:induction false} NewRecord(ps: seq<Phase>, nextObj: nat, parked: Parked, lo: nat, obj: nat)
    requires Distinct(ps, nextObj) && 1 <= lo && nextObj <= obj
    ensures obj !in Moving(ByRecord, ps, parked, lo)
  {
    if 1 <= |ps| {
      MovingIs(ByRecord, ps, nextObj, parked, lo, 1);
    }
    assert forall n: nat :: 1 <= n <= |ps| ==> KeyOf(ByRecord, At(ps, n)) < nextObj;
  }

  /** What is filed after a move under the number a phase has then. */
  lemma {:induction false} RefiledIs(filing: Filing, ps: seq<Phase>, m: seq<nat>, nextObj: nat, parked: Parked, lo: nat, n: nat)
    requires Permutes(m, |ps|) && Ranged(ps) && Distinct(ps, nextObj) && 1 <= lo <= n <= |ps|
    requires forall k: nat :: k < lo - 1 && k < |m| ==> m[k] == k + 1
    ensures n in m && lo <= Place(m, n) <= |ps|
    ensures var r := Refiled(filing, ps, Reordered(ps, m, nextObj), parked, lo);
      && (Place(m, n) in r <==> n in parked && Survives(filing, At(ps, n)))
      && (Place(m, n) in r ==> r[Place(m, n)] == parked[n])
  {
    ReorderKeepsPhase(ps, m, nextObj, n);
    StaysBehind(m, lo, n);
    MovingIs(filing, ps, nextObj, parked, lo, n);
    LandedIs(filing, Reordered(ps, m, nextObj), Moving(filing, ps, parked, lo), |ps|);
    var q := At(Reordered(ps, m, nextObj), Place(m, n));
    if Survives(filing, At(ps, n)) {
      assert KeyOf(filing, q) == KeyOf(filing, At(ps, n));
    } else {
      NewRecord(ps, nextObj, parked, lo, q.obj);
    }
  }

  /** The number phase `n` has once the phases in `later` are moved behind the others. */
  ghost function NumberAfter(j: Job, later: set<nat>, n: nat): (r: nat)
    requires j.index <= |j.phases| && 1 <= n <= |j.phases|
    ensures n in MoveOf(j, later) && r == Place(MoveOf(j, later), n) && 1 <= r <= |j.phases|
  {
    MovesPermute(|j.phases|, j.index, later);
    Place(MoveOf(j, later), n)
  }

  /** The number phase `n` has once the phase in turn is set aside. */
  ghost function AfterPark(j: Job, n: nat): (r: nat)
    requires j.index < |j.phases| && 1 <= n <= |j.phases|
    ensures 1 <= r <= |j.phases|
  {
    NumberAfter(j, Needing(j.phases, j.index + 1), n)
  }

  ghost function PhasesAfter(j: Job): (qs: seq<Phase>)
    requires j.index < |j.phases|
    ensures |qs| == |j.phases|
  {
    MovePhases(j, Needing(j.phases, j.index + 1)).phases
  }

  lemma {:induction false} SamePlace(m: seq<nat>, a: nat, b: nat)
    requires a in m && b in m && Place(m, a) == Place(m, b)
    ensures a == b
  {
    assert m[Place(m, a) - 1] == a && m[Place(m, b) - 1] == b;
  }

  lemma {:induction false} MoveNumbers(ps: seq<Phase>, m: seq<nat>, nextObj: nat, n: nat)
    requires Permutes(m, |ps|) && Ranged(ps) && 1 <= n <= |ps|
    ensures n in m && 1 <= Place(m, n) <= |ps|
    ensures var q := At(Reordered(ps, m, nextObj), Place(m, n));
      q.uid == At(ps, n).uid && q.platform == At(ps, n).platform && (q.needs.None? <==> At(ps, n).needs.None?)
  {
    ReorderKeepsPhase(ps, m, nextObj, n);
  }

  /** The new number of an unbuilt phase is past the cursor, its own, and still that phase's. */
  lemma {:induction false} ParkNumbers(j: Job, n: nat)
    requires Ranged(j.phases) && j.index < n <= |j.phases|
    ensures j.index < AfterPark(j, n)
    ensures var q := At(PhasesAfter(j), AfterPark(j, n));
      q.uid == At(j.phases, n).uid && q.platform == At(j.phases, n).platform && (q.needs.None? <==> At(j.phases, n).needs.None?)
    ensures AfterPark(j, n) == AfterPark(j, j.index + 1) ==> n == j.index + 1
  {
    var later := Needing(j.phases, j.index + 1);
    MovesPermute(|j.phases|, j.index, later);
    assert AfterPark(j, n) == Place(MoveOf(j, later), n);
    MoveNumbers(j.phases, MoveOf(j, later), j.nextObj, n);
    StaysBehind(MoveOf(j, later), j.index + 1, n);
    if AfterPark(j, n) == AfterPark(j, j.index + 1) {
      SamePlace(MoveOf(j, later), n, j.index + 1);
    }
  }

  ghost function AllRefiled(filing: Filing, j: Job): Parked
    requires j.index < |j.phases|
  {
    var later := Needing(j.phases, j.index + 1);
    MovesPermute(|j.phases|, j.index, later);
    Refiled(filing, j.phases, Reordered(j.phases, MoveOf(j, later), j.nextObj), j.parked, j.index + 1)
  }

  lemma {:induction false} RefiledFollows(filing: Filing, j: Job, n: nat)
    requires Ranged(j.phases) && Distinct(j.phases, j.nextObj) && j.index < n <= |j.phases|
    ensures var r := AfterPark(j, n); var all := AllRefiled(filing, j);
      (r in all <==> n in j.parked && Survives(filing, At(j.phases, n))) && (r in all ==> all[r] == j.parked[n])
  {
    var later := Needing(j.phases, j.index + 1);
    MovesPermute(|j.phases|, j.index, later);
    RefiledIs(filing, j.phases, MoveOf(j, later), j.nextObj, j.parked, j.index + 1, n);
  }

  lemma {:induction false} ParkIs(filing: Filing, j: Job, why: string)
    requires j.index < |j.phases|
    ensures ParkStep(filing, j, why).phases == PhasesAfter(j) && ParkStep(filing, j, why).index == j.index
    ensures ParkStep(filing, j, why).parked == AllRefiled(filing, j)[AfterPark(j, j.index + 1) := Held(why, j.wip, j.work, InTurn(j).uid)]
  {
  }

  /** Setting a phase aside: its record goes with it, and another's goes with its phase
      exactly when it survives. */
  lemma {:induction false} ParkFiles(filing: Filing, j: Job, why: string, n: nat)
    requires Ranged(j.phases) && Distinct(j.phases, j.nextObj) && j.index < n <= |j.phases|
    ensures var k := ParkStep(filing, j, why); var r := AfterPark(j, n);
      if n == j.index + 1 then r in k.parked && k.parked[r] == Held(why, j.wip, j.work, InTurn(j).uid)
      else (r in k.parked <==> n in j.parked && Survives(filing, At(j.phases, n))) && (r in k.parked ==> k.parked[r] == j.parked[n])
  {
    ParkIs(filing, j, why);
    RefiledFollows(filing, j, n);
    ParkNumbers(j, n);
  }

  // -- conserved until its turn ---------------------------------------------------------

  /** Phase `u`, not built yet, has the record `h`. */
  ghost predicate HeldAt(j: Job, n: nat, u: nat, h: Held)
  {
    j.index < n <= |j.phases| && n in j.parked && At(j.phases, n).uid == u && j.parked[n] == h
  }

  ghost predicate Holds(j: Job, u: nat, h: Held)
  {
    exists n: nat :: HeldAt(j, n, u, h)
  }

  lemma {:induction false} ParkHolds(filing: Filing, j: Job, why: string, n: nat, u: nat, h: Held)
    requires PlanKept(j) && HeldAt(j, n, u, h) && n != j.index + 1 && Survives(filing, At(j.phases, n))
    ensures Holds(ParkStep(filing, j, why), u, h)
  {
    ParkIs(filing, j, why);
    ParkFiles(filing, j, why, n);
    ParkNumbers(j, n);
    assert HeldAt(ParkStep(filing, j, why), AfterPark(j, n), u, h);
  }

  /** A phase in turn that had been set aside: its counters are back as they were, and so is
      its work where it still applies; where it does not, no record holds it any more. Its
      record is gone, and the person is asked. */
  lemma {:induction false} UnparkRestores(filing: Filing, j: Job, here: set<Platform>, screens: bool, fits: bool, answer: Answer, u: nat, h: Held)
    requires PlanKept(j) && j.state == Developing && HeldAt(j, j.index + 1, u, h)
    ensures var k := DevelopStep(filing, j, here, screens, fits, answer);
      && k.work == h.work && k.wip == (if fits then h.patch else j.wip)
      && k.state == AwaitDecision && k.budgetStop && k.resume == Some(Developing)
      && k.phases == j.phases && k.index == j.index
      && (forall g :: !Holds(k, u, g))
      && (forall v, g :: v != u ==> (Holds(j, v, g) <==> Holds(k, v, g)))
  {
    var k := DevelopStep(filing, j, here, screens, fits, answer);
    DevelopIs(filing, j, PhaseTurn(here, screens, fits, answer));
    OnlyThatRecord(j, fits, u);
  }

  lemma {:induction false} OnlyThatRecord(j: Job, fits: bool, u: nat)
    requires Distinct(j.phases, j.nextObj) && j.index < |j.phases| && j.index + 1 in j.parked && InTurn(j).uid == u
    ensures forall g :: !Holds(UnparkStep(j, fits), u, g)
    ensures forall v, g :: v != u ==> (Holds(j, v, g) <==> Holds(UnparkStep(j, fits), v, g))
  {
    var k := UnparkStep(j, fits);
    forall g ensures !Holds(k, u, g) {
      if n: nat :| HeldAt(k, n, u, g) {
        SamePhase(j.phases, j.nextObj, n, j.index + 1);
      }
    }
    forall v, g | v != u ensures Holds(j, v, g) <==> Holds(k, v, g) {
      if n: nat :| HeldAt(j, n, v, g) {
        assert HeldAt(k, n, v, g);
      }
      if n: nat :| HeldAt(k, n, v, g) {
        assert HeldAt(j, n, v, g);
      }
    }
  }

  /** Events that leave the phases and the records of those set aside alone. */
  predicate LeavesPhases(e: Event)
  {
    !e.PhaseTurn? && !e.PlanWritten? && !e.PlanEdited?
  }

  /** The phases and the records are where they were, and the state is what it looks like. */
  ghost predicate LeftAlone(j: Job, k: Job)
  {
    k.phases == j.phases && k.parked == j.parked && k.nextObj == j.nextObj && k.want == j.want && Placed(k)
  }

  lemma {:induction false} DecisionsLeave(j: Job, drawing: bool, empty: bool)
    requires Placed(j) && ApproveStep(j, drawing, empty).Some?
    ensures var k := ApproveStep(j, drawing, empty).value; LeftAlone(j, k)
  {
    if j.state == AwaitReconcile {
      AcceptPlaced(j, drawing, empty);
    } else {
      ApproveStays(j, drawing, empty);
    }
  }

  lemma {:induction false} GateLeavesPhases(cfg: Config, j: Job, gate: Gate)
    requires Placed(j) && j.state == BuildGate
    ensures LeftAlone(j, GateStep(cfg, j, gate))
  {
    if gate.Green? && j.index + 1 !in j.unread {
      GateMovesOn(cfg, j, gate);
    } else {
      GateStays(cfg, j, gate);
    }
  }

  lemma {:induction false} HandlersLeave(cfg: Config, j: Job, e: Event)
    requires Placed(j) && (e.GateRun? || e.PhaseReviewed? || e.TestsTurn? || e.PhasesRead?)
    requires Next(cfg, j, e).Some?
    ensures LeftAlone(j, Next(cfg, j, e).value)
  {
    match e
    case GateRun(builds) => GateLeavesPhases(cfg, j, GateOf(cfg, j, builds));
    case PhaseReviewed(blocking, enforced) => ReviewStays(cfg, j, blocking, enforced);
    case TestsTurn(rounds) => QaStays(cfg, j, rounds);
    case PhasesRead(found) => ReadStays(j, found);
  }

  lemma {:induction false} CountedLeaves(j: Job, k: Job)
    requires Placed(j) && k == Counted(j)
    ensures LeftAlone(j, k)
  {
    CountedPlaced(j, k);
  }

  lemma {:induction false} AutoLeaves(cfg: Config, j: Job, drawing: bool, empty: bool)
    requires Placed(j) && AutoStep(cfg, j, drawing, empty).Some?
    ensures LeftAlone(j, AutoStep(cfg, j, drawing, empty).value)
  {
    CountedLeaves(j, Counted(j));
    if ApproveStep(Counted(j), drawing, empty).Some? {
      DecisionsLeave(Counted(j), drawing, empty);
    }
  }

  lemma {:induction false} PeopleLeave(cfg: Config, j: Job, e: Event)
    requires Placed(j) && (e.Approved? || CountsOne(e) || e.Rejected? || e.Steered?) && Next(cfg, j, e).Some?
    ensures LeftAlone(j, Next(cfg, j, e).value)
  {
    match e
    case Approved(drawing, empty) => DecisionsLeave(j, drawing, empty);
    case AutoApproved(drawing, empty) => AutoLeaves(cfg, j, drawing, empty);
    case AutoMissed => CountedLeaves(j, Counted(j));
    case Rejected => RejectStays(j);
    case Steered(n) => SteeredStays(cfg, j, n);
  }

  lemma {:induction false} PhasesLeft(cfg: Config, j: Job, e: Event)
    requires Placed(j) && LeavesPhases(e) && Next(cfg, j, e).Some?
    ensures LeftAlone(j, Next(cfg, j, e).value)
  {
    if ByHandler(e) {
      HandlersLeave(cfg, j, e);
    } else if Onward(e) {
      OnwardStays(cfg, j, e);
    } else if Aside(e) {
      AsideStays(cfg, j, e);
    } else {
      PeopleLeave(cfg, j, e);
    }
  }

  /** Nothing is moved past phase `u` when the phases that cannot be built here are. */
  ghost predicate StaysPut(j: Job, here: set<Platform>, u: nat)
  {
    SetsLast(j, here) ==>
      forall n: nat :: j.index < n <= |j.phases| && At(j.phases, n).uid == u ==>
        StandsStill(|j.phases|, j.index, Unbuildable(j.phases, j.index, here), n)
  }

  lemma {:induction false} ReadyHolds(j: Job, here: set<Platform>, n: nat, u: nat, h: Held)
    requires PlanKept(j) && j.state == Developing && j.index < |j.phases| && j.index + 1 !in j.parked && StaysPut(j, here, u) && HeldAt(j, n, u, h)
    ensures HeldAt(Ready(j, here), n, u, h)
  {
    if SetsLast(j, here) {
      RecordLeftBehind(j, here, n, u, h);
    }
  }

  lemma {:induction false} TurnHolds(cfg: Config, j: Job, e: Event, u: nat, h: Held)
    requires cfg.filing.ByPhase? && Inv(cfg, j) && Trusted(j, e) && e.PhaseTurn? && j.state == Developing && StaysPut(j, e.here, u)
    requires Holds(j, u, h) && (j.index < |j.phases| ==> InTurn(j).uid != u)
    ensures Holds(DevelopStep(cfg.filing, j, e.here, e.screens, e.fits, e.answer), u, h)
  {
    var n: nat :| HeldAt(j, n, u, h);
    assert n != j.index + 1;
    DevelopIs(cfg.filing, j, e);
    if j.index + 1 in j.parked {
      OthersHold(j, e.fits, n, u, h);
    } else {
      TriedHolds(cfg, j, e, n, u, h);
    }
  }

  lemma {:induction false} TriedHolds(cfg: Config, j: Job, e: Event, n: nat, u: nat, h: Held)
    requires cfg.filing.ByPhase? && Inv(cfg, j) && Trusted(j, e) && e.PhaseTurn? && j.state == Developing && StaysPut(j, e.here, u)
    requires j.index < |j.phases| && j.index + 1 !in j.parked && HeldAt(j, n, u, h) && n != j.index + 1
    ensures Holds(TurnStep(cfg.filing, Ready(j, e.here), e.here, e.screens, e.answer), u, h)
  {
    ReadyKeeps(cfg, j, e.here);
    ReadyHolds(j, e.here, n, u, h);
    LeftHolds(cfg.filing, Ready(j, e.here), e, n, u, h);
  }

  /** A turn's two ways: the phase in turn was set aside earlier, or it is tried. */
  lemma {:induction false} DevelopIs(filing: Filing, j: Job, e: Event)
    requires e.PhaseTurn? && j.index < |j.phases|
    ensures DevelopStep(filing, j, e.here, e.screens, e.fits, e.answer)
      == if j.index + 1 in j.parked then UnparkStep(j, e.fits) else TurnStep(filing, Ready(j, e.here), e.here, e.screens, e.answer)
  {
  }

  lemma {:induction false} OthersHold(j: Job, fits: bool, n: nat, u: nat, h: Held)
    requires HeldAt(j, n, u, h) && n != j.index + 1 && j.index + 1 in j.parked
    ensures Holds(UnparkStep(j, fits), u, h)
  {
    assert HeldAt(UnparkStep(j, fits), n, u, h);
  }

  lemma {:induction false} LeftHolds(filing: Filing, l: Job, e: Event, n: nat, u: nat, h: Held)
    requires filing.ByPhase? && PlanKept(l) && e.PhaseTurn? && l.state == Developing && HeldAt(l, n, u, h) && n != l.index + 1
    ensures Holds(TurnStep(filing, l, e.here, e.screens, e.answer), u, h)
  {
    if Parks(l, e) {
      assert TurnStep(filing, l, e.here, e.screens, e.answer) == ParkStep(filing, l, e.answer.why);
      ParkHolds(filing, l, e.answer.why, n, u, h);
    } else {
      NotParkedLeaves(filing, l, e);
      assert HeldAt(TurnStep(filing, l, e.here, e.screens, e.answer), n, u, h);
    }
  }

  /** Only the state, the text and the counters are others; it is not in review. */
  ghost predicate SameSpot(l: Job, k: Job)
  {
    && k.phases == l.phases && k.index == l.index && k.parked == l.parked && k.nextObj == l.nextObj && k.want == l.want
    && k.state != Review
  }

  /** A turn that sets nothing aside leaves the phases and their records where they are. */
  lemma {:induction false} NotParkedLeaves(filing: Filing, l: Job, e: Event)
    requires e.PhaseTurn? && l.state == Developing && l.index < |l.phases| && !Parks(l, e)
    ensures SameSpot(l, TurnStep(filing, l, e.here, e.screens, e.answer))
  {
    if BuildableHere(InTurn(l), e.here) && !e.screens {
      AnswerLeavesSpot(filing, l, e.answer);
    }
  }

  lemma {:induction false} AnswerLeavesSpot(filing: Filing, l: Job, answer: Answer)
    requires l.state == Developing && l.index < |l.phases| && !(answer.Spent? && SomeFree(l))
    ensures SameSpot(l, AnswerStep(filing, l, answer))
  {
  }

  /** The record of a phase set aside stays with it, whatever is set aside after it, until
      its turn comes, it is settled, the plan is made again, or phases are moved past it. */
  lemma {:induction false} RecordStays(cfg: Config, j: Job, e: Event, u: nat, h: Held)
    requires cfg.filing.ByPhase? && Inv(cfg, j) && Trusted(j, e) && Next(cfg, j, e).Some?
    requires Holds(j, u, h) && u !in Uids(Next(cfg, j, e).value.log)
    requires !e.PlanWritten? && !e.PlanEdited?
    requires e.PhaseTurn? ==> StaysPut(j, e.here, u) && (j.index < |j.phases| ==> InTurn(j).uid != u)
    ensures Holds(Next(cfg, j, e).value, u, h)
  {
    var k := Next(cfg, j, e).value;
    if e.PhaseTurn? {
      TurnHolds(cfg, j, e, u, h);
    } else {
      PhasesLeft(cfg, j, e);
      StepKeeps(cfg, j, e);
      SettledIsBuilt(j, k, u, h);
    }
  }

  lemma {:induction false} SettledIsBuilt(j: Job, k: Job, u: nat, h: Held)
    requires Holds(j, u, h) && k.phases == j.phases && k.parked == j.parked && SettledUpTo(k, k.index) && u !in Uids(k.log)
    ensures Holds(k, u, h)
  {
    var n: nat :| HeldAt(j, n, u, h);
    assert HeldAt(k, n, u, h);
  }

  // -- moving what cannot be built here -------------------------------------------------

  /** How many numbers from `lo` up to but not including `n` are in `later`, or are not. */
  function CountIn(lo: nat, n: nat, later: set<nat>, want: bool): nat
    decreases n - lo
  {
    if n <= lo then 0 else (if (lo in later) == want then 1 else 0) + CountIn(lo + 1, n, later, want)
  }

  lemma {:induction false} CountsAdd(lo: nat, n: nat, later: set<nat>)
    requires lo <= n
    ensures CountIn(lo, n, later, true) + CountIn(lo, n, later, false) == n - lo
    decreases n - lo
  {
    if lo < n {
      CountsAdd(lo + 1, n, later);
    }
  }

  lemma {:induction false} CountZero(lo: nat, n: nat, later: set<nat>, want: bool)
    ensures CountIn(lo, n, later, want) == 0 <==> forall k: nat :: lo <= k < n ==> (k in later) != want
    decreases n - lo
  {
    if lo < n {
      CountZero(lo + 1, n, later, want);
    }
  }

  lemma {:induction false} CountSplits(lo: nat, n: nat, hi: nat, later: set<nat>, want: bool)
    requires lo <= n <= hi
    ensures CountIn(lo, hi, later, want) == CountIn(lo, n, later, want) + CountIn(n, hi, later, want)
    decreases n - lo
  {
    if lo < n {
      CountSplits(lo + 1, n, hi, later, want);
    }
  }

  lemma {:induction false} PickAt(lo: nat, hi: nat, later: set<nat>, want: bool, n: nat)
    requires lo <= n <= hi + 1
    ensures CountIn(lo, n, later, want) <= |Pick(lo, hi, later, want)| == CountIn(lo, hi + 1, later, want)
    ensures n <= hi && (n in later) == want ==>
      CountIn(lo, n, later, want) < |Pick(lo, hi, later, want)| && Pick(lo, hi, later, want)[CountIn(lo, n, later, want)] == n
    decreases n - lo, hi + 1 - lo
  {
    if lo < n {
      PickAt(lo + 1, hi, later, want, n);
    } else if lo <= hi {
      PickAt(lo + 1, hi, later, want, lo + 1);
    }
  }

  /** Where a move puts a phase: behind the ones of its group that stood before it. */
  lemma {:induction false} PlaceCounts(count: nat, index: nat, later: set<nat>, n: nat)
    requires index < n <= count
    ensures n in Moves(count, index, later)
    ensures Place(Moves(count, index, later), n) == index + 1 +
      if n in later then CountIn(index + 1, count + 1, later, false) + CountIn(index + 1, n, later, true)
      else CountIn(index + 1, n, later, false)
  {
    MovesPermute(count, index, later);
    PrefixStays(index);
    var b, c := Pick(index + 1, count, later, false), Pick(index + 1, count, later, true);
    PickAt(index + 1, count, later, false, n);
    PickAt(index + 1, count, later, true, n);
    var m := Moves(count, index, later);
    var at := index + if n in later then |b| + CountIn(index + 1, n, later, true) else CountIn(index + 1, n, later, false);
    assert m[at] == n;
    assert m[Place(m, n) - 1] == n;
  }

  /** Nothing is moved past a phase, so it keeps its number. */
  predicate StandsStill(count: nat, index: nat, later: set<nat>, n: nat)
  {
    if n in later then forall k: nat :: n < k <= count ==> k in later
    else forall k: nat :: index < k < n ==> k !in later
  }

  lemma {:induction false} PlaceStill(count: nat, index: nat, later: set<nat>, n: nat)
    requires index < n <= count
    ensures n in Moves(count, index, later)
    ensures Place(Moves(count, index, later), n) == n <==> StandsStill(count, index, later, n)
  {
    PlaceCounts(count, index, later, n);
    CountsAdd(index + 1, n, later);
    CountZero(index + 1, n, later, true);
    CountSplits(index + 1, n, count + 1, later, false);
    CountZero(n, count + 1, later, false);
  }

  /** The records are not moved when the phases that cannot be built here are: a record is
      still its own phase's exactly when nothing was moved past that phase. */
  lemma {:induction false} RecordLeftBehind(j: Job, here: set<Platform>, n: nat, u: nat, h: Held)
    requires PlanKept(j) && WouldMove(j, here) && HeldAt(j, n, u, h)
    ensures HeldAt(UnbuildableLast(j, here), n, u, h)
      <==> StandsStill(|j.phases|, j.index, Unbuildable(j.phases, j.index, here), n)
  {
    PlaceStill(|j.phases|, j.index, Unbuildable(j.phases, j.index, here), n);
    StayedPut(j, here, n);
  }

  lemma {:induction false} StayedPut(j: Job, here: set<Platform>, n: nat)
    requires PlanKept(j) && WouldMove(j, here) && j.index < n <= |j.phases|
    ensures n in MoveOf(j, Unbuildable(j.phases, j.index, here))
    ensures At(UnbuildableLast(j, here).phases, n).uid == At(j.phases, n).uid
      <==> Place(MoveOf(j, Unbuildable(j.phases, j.index, here)), n) == n
  {
    var later := Unbuildable(j.phases, j.index, here);
    MovesPermute(|j.phases|, j.index, later);
    var m := MoveOf(j, later);
    MoveNumbers(j.phases, m, j.nextObj, n);
    var was := Was(m, |j.phases|, n);
    MoveNumbers(j.phases, m, j.nextObj, was);
    if At(j.phases, was).uid == At(j.phases, n).uid {
      SamePhase(j.phases, j.nextObj, was, n);
    }
  }
}
