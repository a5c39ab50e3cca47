/**
 Unattended runs that go on for ever, and what keeps one from it.

 Records that are filed by the identity of their phase's dictionary get lost (see Parking),
 and a phase whose record is lost is tried anew instead of being put to a person. Two phases
 that name what they need, and neither of which needs the other, can then take turns without
 end (see Turns). Where there are no two such phases, a run only goes on for ever by moving
 phases that cannot be built here behind others (see Swings).
 */
module Livelock {
  import opened Wrappers
  import opened Plan
  import opened Reordering
  import opened Job
  import opened Safety
  import opened Parking
  import opened Termination

  /** A step of a run nobody looks at, on one plan. */
  ghost predicate LoopStep(cfg: Config, j: Job, e: Event, k: Job)
  {
    Unattended(e) && Next(cfg, j, e) == Some(k) && k.plan == j.plan
  }

  ghost predicate GoesOn(cfg: Config, run: nat -> Job, events: nat -> Event)
  {
    forall i: nat :: LoopStep(cfg, run(i), events(i), run(i + 1))
  }

  ghost predicate GoesOnFrom(cfg: Config, j: Job, run: nat -> Job, events: nat -> Event)
  {
    run(0) == j && GoesOn(cfg, run, events)
  }

  /** A run of the development from here on that never comes to a gate or an end. */
  ghost predicate CanGoOnForever(cfg: Config, j: Job)
  {
    exists run: nat -> Job, events: nat -> Event :: GoesOnFrom(cfg, j, run, events)
  }

  /** A phase is set aside from within the handler that set the one before aside. */
  ghost predicate Nested(run: nat -> Job, events: nat -> Event, i: nat)
  {
    SetsAside(run(i), events(i)) && SetsAside(run(i + 1), events(i + 1))
  }

  /** It never ends, and the handlers come back to the run loop again and again. */
  ghost predicate LoopsOn(cfg: Config, j: Job, run: nat -> Job, events: nat -> Event)
  {
    GoesOnFrom(cfg, j, run, events) && forall i: nat :: !Nested(run, events, i)
  }

  ghost predicate CanLoopForever(cfg: Config, j: Job)
  {
    exists run: nat -> Job, events: nat -> Event :: LoopsOn(cfg, j, run, events)
  }

  // -- what the phases want of each other -----------------------------------------------

  ghost predicate Wanted(want: Wants, u: nat, v: nat)
  {
    v in want && u in want[v]
  }

  /** A chain of phases, each wanted by the next. */
  ghost predicate WantChain(want: Wants, c: seq<nat>)
  {
    && 0 < |c|
    && forall i, l :: 0 <= i < l < |c| && l == i + 1 ==> Wanted(want, c[i], c[l])
  }

  ghost predicate WantLinks(want: Wants, c: seq<nat>, u: nat, v: nat)
  {
    WantChain(want, c) && c[0] == u && c[|c| - 1] == v
  }

  /** `v` wants `u`, directly or through others. */
  ghost predicate WantsDeep(want: Wants, u: nat, v: nat)
  {
    exists c :: WantLinks(want, c, u, v)
  }

  lemma {:induction false} ChainShortens(want: Wants, c: seq<nat>)
    requires WantChain(want, c) && 1 < |c|
    ensures WantChain(want, c[..|c| - 1]) && Wanted(want, c[|c| - 2], c[|c| - 1])
  {
    var b := c[..|c| - 1];
    forall i, l | 0 <= i < l < |b| && l == i + 1 ensures Wanted(want, b[i], b[l]) {
      assert b[l] == c[l] && b[i] == c[i];
    }
  }

  lemma {:induction false} WantedStep(ps: seq<Phase>, nextObj: nat, want: Wants, n: nat, u: nat)
    requires Distinct(ps, nextObj) && Faithful(ps, want) && InOrder(ps, want) && 1 <= n <= |ps| && u in want[At(ps, n).uid]
    ensures exists d: nat :: 1 <= d < n && Needs(ps, 0, n, d) && At(ps, d).uid == u
  {
    assert u in Before(ps, n);
    var d: nat :| 1 <= d < n && d <= |ps| && At(ps, d).uid == u;
    if At(ps, n).needs.Some? {
      NamesIt(ps, nextObj, n, d);
    }
    assert Needs(ps, 0, n, d);
  }

  /** What a phase wants through others, it depends on, whatever was moved since. */
  lemma {:induction false} WantedIsNeeded(ps: seq<Phase>, nextObj: nat, want: Wants, c: seq<nat>, u: nat, n: nat)
    requires Distinct(ps, nextObj) && Faithful(ps, want) && InOrder(ps, want) && 1 <= n <= |ps|
    requires WantLinks(want, c, u, At(ps, n).uid)
    ensures exists a: nat :: 1 <= a <= n && At(ps, a).uid == u && DependsOn(ps, 0, n, a)
    decreases |c|
  {
    if |c| == 1 {
      DependsOnSelf(ps, 0, n);
      assert At(ps, n).uid == u;
    } else {
      var b := c[..|c| - 1];
      ChainShortens(want, c);
      WantedStep(ps, nextObj, want, n, c[|c| - 2]);
      var d: nat :| 1 <= d < n && Needs(ps, 0, n, d) && At(ps, d).uid == c[|c| - 2];
      assert WantLinks(want, b, u, At(ps, d).uid);
      WantedIsNeeded(ps, nextObj, want, b, u, d);
      var a: nat :| 1 <= a <= d && At(ps, a).uid == u && DependsOn(ps, 0, d, a);
      DependsOnStep(ps, 0, n, d, a);
    }
  }

  /** What no move changes of a phase: which it is, whether it names what it needs, and where
      it can be built. */
  datatype Kind = Kind(uid: nat, names: bool, platform: Option<Platform>)

  function KindOf(p: Phase): Kind
  {
    Kind(p.uid, p.needs.Some?, p.platform)
  }

  ghost function KindsFrom(ps: seq<Phase>, cursor: nat): set<Kind>
  {
    set n: nat | cursor < n <= |ps| :: KindOf(At(ps, n))
  }

  /** The phases that may still have to be built. */
  ghost function OpenKinds(j: Job): set<Kind>
  {
    KindsFrom(j.phases, Cursor(j))
  }

  /** Neither wants the other. */
  ghost predicate Apart(want: Wants, u: nat, v: nat)
  {
    !WantsDeep(want, u, v) && !WantsDeep(want, v, u)
  }

  /** Of two phases that name what they need, one wants the other. */
  ghost predicate Tied(kinds: set<Kind>, want: Wants)
  {
    forall a, b :: a in kinds && b in kinds && a.names && b.names && a.uid != b.uid ==> !Apart(want, a.uid, b.uid)
  }

  predicate Suits(here: set<Platform>, k: Kind)
  {
    k.platform.None? || k.platform.value in here
  }

  /** Somewhere `p` can be built and `n` cannot. */
  predicate Parted(p: Kind, n: Kind)
  {
    n.platform.Some? && p.platform != n.platform
  }

  /** A phase that names what it needs can be set behind one it does not want. */
  ghost predicate CanSwing(kinds: set<Kind>, want: Wants)
  {
    exists p, n :: p in kinds && n in kinds && n.names && Parted(p, n) && !WantsDeep(want, p.uid, n.uid)
  }

  /** No phase that can be built somewhere wants one that cannot be built there. */
  ghost predicate PlatformsAlone(kinds: set<Kind>, want: Wants)
  {
    forall a, b :: a in kinds && b in kinds && Wanted(want, a.uid, b.uid) ==> !Parted(b, a)
  }

  /** What there is no endless run of. */
  ghost predicate Restful(j: Job)
  {
    Tied(OpenKinds(j), j.want) && !CanSwing(OpenKinds(j), j.want) && PlatformsAlone(OpenKinds(j), j.want)
  }

  lemma {:induction false} WantsItself(want: Wants, u: nat)
    ensures WantsDeep(want, u, u)
  {
    assert WantLinks(want, [u], u, u);
  }

  lemma {:induction false} WantedDepends(j: Job, a: nat, b: nat)
    requires PlanKept(j) && 1 <= a <= |j.phases| && 1 <= b <= |j.phases| && WantsDeep(j.want, At(j.phases, a).uid, At(j.phases, b).uid)
    ensures a <= b && DependsOn(j.phases, 0, b, a)
  {
    var c :| WantLinks(j.want, c, At(j.phases, a).uid, At(j.phases, b).uid);
    WantedIsNeeded(j.phases, j.nextObj, j.want, c, At(j.phases, a).uid, b);
    var x: nat :| 1 <= x <= b && At(j.phases, x).uid == At(j.phases, a).uid && DependsOn(j.phases, 0, b, x);
    SamePhase(j.phases, j.nextObj, x, a);
  }

  lemma {:induction false} LaterNotWanted(j: Job, a: nat, b: nat)
    requires PlanKept(j) && 1 <= a < b <= |j.phases|
    ensures !WantsDeep(j.want, At(j.phases, b).uid, At(j.phases, a).uid)
  {
    if WantsDeep(j.want, At(j.phases, b).uid, At(j.phases, a).uid) {
      WantedDepends(j, b, a);
    }
  }

  lemma {:induction false} NamersTied(j: Job, a: nat, b: nat)
    requires PlanKept(j) && Tied(OpenKinds(j), j.want) && Cursor(j) < a < b <= |j.phases|
    requires At(j.phases, a).needs.Some? && At(j.phases, b).needs.Some?
    ensures DependsOn(j.phases, 0, b, a)
  {
    var x, y := KindOf(At(j.phases, a)), KindOf(At(j.phases, b));
    assert x in OpenKinds(j) && y in OpenKinds(j) && x.uid != y.uid;
    LaterNotWanted(j, a, b);
    WantedDepends(j, a, b);
  }

  lemma {:induction false} FreeIsNamer(j: Job, f: nat)
    requires j.index < |j.phases| && f in Free(j)
    ensures j.index + 1 < f <= |j.phases| && At(j.phases, f).needs.Some?
  {
    NeedingHas(j.phases, j.index + 1);
  }

  /** Where all are tied, nothing is free while a phase that names its needs is stuck. */
  lemma {:induction false} NamerFreesNothing(j: Job)
    requires PlanKept(j) && Tied(OpenKinds(j), j.want) && j.state == Developing && j.index < |j.phases| && InTurn(j).needs.Some?
    ensures !SomeFree(j)
  {
    forall n | n in Free(j) ensures false {
      FreeIsNamer(j, n);
      NamersTied(j, j.index + 1, n);
      NeedingIs(j.phases, j.index + 1);
    }
  }

  // -- tied phases come to rest ---------------------------------------------------------

  /** A phase of the moved plan, and where it stood. */
  lemma {:induction false} MovedWas(j: Job, later: set<nat>, r: nat) returns (n: nat)
    requires Ranged(j.phases) && j.index < r <= |j.phases|
    ensures j.index < n <= |j.phases| && n in MoveOf(j, later) && Place(MoveOf(j, later), n) == r
    ensures KindOf(At(MovePhases(j, later).phases, r)) == KindOf(At(j.phases, n))
  {
    n := UnbuiltWas(j, later, r);
    MovesPermute(|j.phases|, j.index, later);
    MoveNumbers(j.phases, MoveOf(j, later), j.nextObj, n);
  }

  lemma {:induction false} KindsMoved(j: Job, later: set<nat>)
    requires Ranged(j.phases) && j.index <= |j.phases|
    ensures KindsFrom(MovePhases(j, later).phases, j.index) <= KindsFrom(j.phases, j.index)
  {
    var qs := MovePhases(j, later).phases;
    forall k | k in KindsFrom(qs, j.index) ensures k in KindsFrom(j.phases, j.index) {
      var r: nat :| j.index < r <= |qs| && KindOf(At(qs, r)) == k;
      var n := MovedWas(j, later, r);
    }
  }

  /** Unbuilt phases that say nothing of their needs, each with one behind it that does. */
  ghost function Pairs(j: Job): set<(nat, nat)>
  {
    set a, b | a in UpTo(|j.phases|) && b in UpTo(|j.phases|) && Cursor(j) < a < b && IsPair(j.phases, a, b)
      :: (At(j.phases, a).uid, At(j.phases, b).uid)
  }

  predicate IsPair(ps: seq<Phase>, a: nat, b: nat)
    requires 1 <= a <= |ps| && 1 <= b <= |ps|
  {
    At(ps, a).needs.None? && At(ps, b).needs.Some?
  }

  ghost predicate PairOf(j: Job, a: nat, b: nat, u: nat, v: nat)
  {
    Cursor(j) < a < b <= |j.phases| && IsPair(j.phases, a, b) && At(j.phases, a).uid == u && At(j.phases, b).uid == v
  }

  lemma {:induction false} PairsAre(j: Job, u: nat, v: nat)
    ensures (u, v) in Pairs(j) <==> exists a: nat, b: nat :: PairOf(j, a, b, u, v)
  {
    if (u, v) in Pairs(j) {
      var a, b :| a in UpTo(|j.phases|) && b in UpTo(|j.phases|) && Cursor(j) < a < b && IsPair(j.phases, a, b)
        && At(j.phases, a).uid == u && At(j.phases, b).uid == v;
      assert PairOf(j, a, b, u, v);
    }
    if a: nat, b: nat :| PairOf(j, a, b, u, v) {
      assert a in UpTo(|j.phases|) && b in UpTo(|j.phases|);
    }
  }

  /** No phase that names its needs is set behind one that does not. */
  ghost predicate NamersAhead(j: Job, later: set<nat>)
  {
    forall x: nat, y: nat :: j.index < x < y <= |j.phases| && IsPair(j.phases, y, x) ==> !Overtaken(j.index, later, x, y)
  }

  /** A pair of the moved plan was one before. */
  lemma {:induction false} PairWas(j: Job, later: set<nat>, a: nat, b: nat) returns (x: nat, y: nat)
    requires Ranged(j.phases) && NamersAhead(j, later)
    requires j.index < a < b <= |j.phases| && IsPair(MovePhases(j, later).phases, a, b)
    ensures j.index < x < y <= |j.phases| && x in MoveOf(j, later) && y in MoveOf(j, later)
    ensures Place(MoveOf(j, later), x) == a && Place(MoveOf(j, later), y) == b && IsPair(j.phases, x, y)
    ensures At(MovePhases(j, later).phases, a).uid == At(j.phases, x).uid && At(MovePhases(j, later).phases, b).uid == At(j.phases, y).uid
  {
    x := MovedWas(j, later, a);
    y := MovedWas(j, later, b);
    if y < x {
      PlaceOrder(|j.phases|, j.index, later, y, x);
    }
  }

  lemma {:induction false} PairsMoved(j: Job, later: set<nat>, k: Job)
    requires Ranged(j.phases) && NamersAhead(j, later) && j.index <= |j.phases| && j.state == k.state == Developing
    requires k.phases == MovePhases(j, later).phases && k.index == j.index
    ensures Pairs(k) <= Pairs(j)
  {
    forall u, v | (u, v) in Pairs(k) ensures (u, v) in Pairs(j) {
      PairsAre(k, u, v);
      var a: nat, b: nat :| PairOf(k, a, b, u, v);
      var x, y := PairWas(j, later, a, b);
      assert PairOf(j, x, y, u, v);
      PairsAre(j, u, v);
    }
  }

  lemma {:induction false} ParkNamersAhead(j: Job)
    requires j.index < |j.phases|
    ensures NamersAhead(j, Needing(j.phases, j.index + 1))
  {
    NeedingHas(j.phases, j.index + 1);
  }

  /** Where all are tied, only a phase that says nothing of its needs is set aside, and one
      that does goes ahead of it. */
  lemma {:induction false} ParkLosesPair(j: Job, filing: Filing, why: string)
    requires PlanKept(j) && Tied(OpenKinds(j), j.want) && j.index < |j.phases| && SomeFree(j) && j.state == Developing
    ensures |Pairs(ParkStep(filing, j, why))| < |Pairs(j)|
  {
    var k, h := ParkStep(filing, j, why), j.index + 1;
    ParkedPlace(filing, j, why);
    ParkNamersAhead(j);
    PairsMoved(j, Needing(j.phases, h), k);
    if InTurn(j).needs.Some? {
      NamerFreesNothing(j);
    }
    var f :| f in Free(j);
    FreeIsNamer(j, f);
    var u, v := At(j.phases, h).uid, At(j.phases, f).uid;
    assert PairOf(j, h, f, u, v);
    PairsAre(j, u, v);
    PairGone(j, k, f);
    SmallerSet(Pairs(k), Pairs(j));
  }

  lemma {:induction false} PairGone(j: Job, k: Job, f: nat)
    requires Ranged(j.phases) && Distinct(j.phases, j.nextObj) && j.index < |j.phases| && f in Free(j) && k.phases == PhasesAfter(j)
    requires k.index == j.index && j.state == k.state == Developing
    ensures (At(j.phases, j.index + 1).uid, At(j.phases, f).uid) !in Pairs(k)
  {
    var h, later := j.index + 1, Needing(j.phases, j.index + 1);
    var u, v := At(j.phases, h).uid, At(j.phases, f).uid;
    PairsAre(k, u, v);
    if a: nat, b: nat :| PairOf(k, a, b, u, v) {
      ParkNamersAhead(j);
      var x, y := PairWas(j, later, a, b);
      SamePhase(j.phases, j.nextObj, x, h);
      SamePhase(j.phases, j.nextObj, y, f);
      FreeIsNamer(j, f);
      PlaceOrder(|j.phases|, j.index, later, h, f);
      NeedingHas(j.phases, h);
    }
  }

  /** Without a swing, no phase that names its needs is moved behind one that does not. */
  lemma {:induction false} LastNamersAhead(j: Job, here: set<Platform>)
    requires PlanKept(j) && j.state == Developing && !CanSwing(OpenKinds(j), j.want)
    ensures NamersAhead(j, Unbuildable(j.phases, j.index, here))
  {
    forall x: nat, y: nat | j.index < x < y <= |j.phases| && IsPair(j.phases, y, x)
      ensures !Overtaken(j.index, Unbuildable(j.phases, j.index, here), x, y)
    {
      LaterNotWanted(j, x, y);
      assert KindOf(At(j.phases, x)) in OpenKinds(j) && KindOf(At(j.phases, y)) in OpenKinds(j);
      assert y in UpTo(|j.phases|);
    }
  }

  // -- what comes to rest -----------------------------------------------------------------

  /** What may still have to be built is what it was, or some of it, and wants the same. */
  ghost predicate FewerOpenKinds(j: Job, k: Job)
  {
    OpenKinds(k) <= OpenKinds(j) && k.want == j.want
  }

  lemma {:induction false} TiedStays(kinds: set<Kind>, fewer: set<Kind>, want: Wants)
    requires fewer <= kinds && Tied(kinds, want)
    ensures Tied(fewer, want)
  {
  }

  lemma {:induction false} StillRestful(j: Job, k: Job)
    requires FewerOpenKinds(j, k) && Restful(j)
    ensures Restful(k)
  {
    TiedStays(OpenKinds(j), OpenKinds(k), j.want);
  }

  /** With each platform's phases wanted by its own alone, moving them last keeps the order. */
  lemma {:induction false} AloneIsTrusted(j: Job, e: Event)
    requires Unattended(e) && PlatformsAlone(OpenKinds(j), j.want)
    ensures Trusted(j, e)
  {
    if e.PhaseTurn? && SetsLast(j, e.here) {
      forall a: nat, b: nat | j.index < a < b <= |j.phases| && !BuildableHere(At(j.phases, a), e.here) && BuildableHere(At(j.phases, b), e.here)
        ensures At(j.phases, a).uid !in j.want[At(j.phases, b).uid]
      {
        var x, y := KindOf(At(j.phases, a)), KindOf(At(j.phases, b));
        assert x in OpenKinds(j) && y in OpenKinds(j) && Parted(y, x);
      }
    }
  }

  lemma {:induction false} LaterOpenKinds(j: Job, k: Job)
    requires k.phases == j.phases && Cursor(j) <= Cursor(k)
    ensures OpenKinds(k) <= OpenKinds(j)
  {
  }

  lemma {:induction false} TriedKinds(filing: Filing, l: Job, e: Event)
    requires Ranged(l.phases) && l.index < |l.phases| && l.state == Developing && e.PhaseTurn?
    ensures FewerOpenKinds(l, TurnStep(filing, l, e.here, e.screens, e.answer))
  {
    if Parks(l, e) {
      KindsMoved(l, Needing(l.phases, l.index + 1));
      ParkOnlyFiles(filing, l, e.answer.why);
    } else {
      NotParkedLeaves(filing, l, e);
    }
  }

  lemma {:induction false} ReadyKinds(j: Job, here: set<Platform>)
    requires Ranged(j.phases) && j.state == Developing && j.index < |j.phases|
    ensures FewerOpenKinds(j, Ready(j, here))
  {
    KindsMoved(j, Unbuildable(j.phases, j.index, here));
  }

  lemma {:induction false} TurnKinds(cfg: Config, j: Job, e: Event, k: Job)
    requires Ranged(j.phases) && Distinct(j.phases, j.nextObj) && e.PhaseTurn? && j.state == Developing
    requires k == DevelopStep(cfg.filing, j, e.here, e.screens, e.fits, e.answer)
    ensures FewerOpenKinds(j, k)
  {
    if |j.phases| <= j.index || j.index + 1 in j.parked {
      StoppedLeft(cfg, j, e, k);
    } else {
      DevelopIs(cfg.filing, j, e);
      ReadyIs(j, e.here);
      ReadyKinds(j, e.here);
      ReadyLoose(j, e.here);
      TriedKinds(cfg.filing, Ready(j, e.here), e);
    }
  }

  lemma {:induction false} StoppedLeft(cfg: Config, j: Job, e: Event, k: Job)
    requires e.PhaseTurn? && j.state == Developing && k == DevelopStep(cfg.filing, j, e.here, e.screens, e.fits, e.answer)
    requires |j.phases| <= j.index || j.index + 1 in j.parked
    ensures k.phases == j.phases && k.want == j.want && k.nextObj == j.nextObj && Cursor(k) == Cursor(j)
  {
    if j.index < |j.phases| {
      DevelopIs(cfg.filing, j, e);
    }
  }

  lemma {:induction false} LoopKinds(cfg: Config, j: Job, e: Event, k: Job)
    requires Loose(j) && LoopStep(cfg, j, e, k)
    ensures FewerOpenKinds(j, k)
  {
    if e.PhaseTurn? {
      TurnKinds(cfg, j, e, k);
    } else if e.PlanWritten? {
      PlanRefused(cfg, j, e, k);
    } else {
      PhasesLeft(cfg, j, e);
      CursorUp(cfg, j, e, k);
      LaterOpenKinds(j, k);
    }
  }

  /** A plan that is not taken leaves everything where it was. */
  lemma {:induction false} PlanRefused(cfg: Config, j: Job, e: Event, k: Job)
    requires e.PlanWritten? && LoopStep(cfg, j, e, k)
    ensures k == FailStep(j) && j.state == Architecture && Cursor(k) == Cursor(j)
  {
  }

  // -- the first phase that may still have to be built ------------------------------------

  lemma {:induction false} GateCursor(cfg: Config, j: Job, gate: Gate)
    requires j.state == BuildGate && j.index < |j.phases|
    ensures Cursor(j) <= Cursor(GateStep(cfg, j, gate))
  {
  }

  lemma {:induction false} ReviewCursor(cfg: Config, j: Job, blocking: nat, enforced: bool)
    requires j.state == Review
    ensures Cursor(j) <= Cursor(ReviewStep(cfg, j, blocking, enforced))
  {
  }

  lemma {:induction false} ApprovedCursor(j: Job, drawing: bool, empty: bool)
    requires Placed(j) && j.state != AwaitDecision && ApproveStep(j, drawing, empty).Some?
    ensures Cursor(j) <= Cursor(ApproveStep(j, drawing, empty).value)
  {
  }

  lemma {:induction false} AutoCursor(cfg: Config, j: Job, drawing: bool, empty: bool)
    requires Placed(j) && AutoStep(cfg, j, drawing, empty).Some?
    ensures Cursor(j) <= Cursor(AutoStep(cfg, j, drawing, empty).value)
  {
    CountedPlaced(j, Counted(j));
    if ApproveStep(Counted(j), drawing, empty).Some? {
      ApprovedCursor(Counted(j), drawing, empty);
    }
  }

  lemma {:induction false} HaltCursor(cfg: Config, j: Job, e: Event)
    requires (e.HandlerFailed? || e.HandlerLooped? || e.BacklogWritten? || e.ScreensDrawn? || e.PhasesRead?) && Next(cfg, j, e).Some?
    ensures Cursor(j) <= Cursor(Next(cfg, j, e).value)
  {
  }

  lemma {:induction false} CursorUp(cfg: Config, j: Job, e: Event, k: Job)
    requires Placed(j) && Unattended(e) && !e.PhaseTurn? && !e.PlanWritten? && Next(cfg, j, e) == Some(k)
    ensures Cursor(j) <= Cursor(k)
  {
    match e
    case GateRun(builds) => GateCursor(cfg, j, GateOf(cfg, j, builds));
    case PhaseReviewed(blocking, enforced) => ReviewCursor(cfg, j, blocking, enforced);
    case AutoApproved(drawing, empty) => AutoCursor(cfg, j, drawing, empty);
    case TestsTurn(rounds) => QaWriteKeeps(cfg, j, rounds, 0, true);
    case ShippingTurn(shipping) => ShipFromKeeps(cfg, j.(devopsStage := 2), shipping.ci, 0);
    case _ => HaltCursor(cfg, j, e);
  }

  // -- no run for ever --------------------------------------------------------------------

  /** Where all are tied and nothing swings, the pairs are what is still open. */
  lemma {:induction false} PairsFit(cfg: Config, j: Job, e: Event, k: Job)
    requires Inv(cfg, j) && LoopStep(cfg, j, e, k) && Restful(j)
    ensures Fits(cfg, j, e, k, |Pairs(j)|, |Pairs(k)|)
  {
    if e.PhaseTurn? {
      TurnPairs(cfg, j, e, k);
    } else {
      if e.PlanWritten? {
        PlanRefused(cfg, j, e, k);
      } else {
        PhasesLeft(cfg, j, e);
      }
      SamePairs(cfg, j, k);
    }
  }

  lemma {:induction false} SamePairs(cfg: Config, j: Job, k: Job)
    requires k.phases == j.phases
    ensures AsFar(cfg, j, k) ==> Pairs(k) == Pairs(j)
  {
  }

  lemma {:induction false} TurnPairs(cfg: Config, j: Job, e: Event, k: Job)
    requires Inv(cfg, j) && Restful(j) && e.PhaseTurn? && j.state == Developing
    requires k == DevelopStep(cfg.filing, j, e.here, e.screens, e.fits, e.answer)
    ensures Fits(cfg, j, e, k, |Pairs(j)|, |Pairs(k)|)
  {
    if |j.phases| <= j.index || j.index + 1 in j.parked {
      StoppedTurn(cfg, j, e, k);
    } else {
      DevelopIs(cfg.filing, j, e);
      AloneIsTrusted(j, e);
      ReadyKeeps(cfg, j, e.here);
      ReadyKinds(j, e.here);
      TiedStays(OpenKinds(j), OpenKinds(Ready(j, e.here)), j.want);
      ReadyPairs(j, e.here);
      LeastPairs(cfg, Ready(j, e.here), e);
    }
  }

  lemma {:induction false} ReadyPairs(j: Job, here: set<Platform>)
    requires PlanKept(j) && j.state == Developing && j.index < |j.phases| && !CanSwing(OpenKinds(j), j.want)
    ensures |Pairs(Ready(j, here))| <= |Pairs(j)|
  {
    if !BuildableHere(InTurn(j), here) && WouldMove(j, here) {
      LastNamersAhead(j, here);
      PairsMoved(j, Unbuildable(j.phases, j.index, here), UnbuildableLast(j, here));
      SmallerSet(Pairs(UnbuildableLast(j, here)), Pairs(j));
    }
  }

  lemma {:induction false} LeastPairs(cfg: Config, l: Job, e: Event)
    requires PlanKept(l) && l.state == Developing && l.index < |l.phases| && e.PhaseTurn? && Tied(OpenKinds(l), l.want)
    ensures var k := TurnStep(cfg.filing, l, e.here, e.screens, e.answer);
      if Parks(l, e) then |Pairs(k)| < |Pairs(l)| else Pairs(k) == Pairs(l)
  {
    if Parks(l, e) {
      ParkLosesPair(l, cfg.filing, e.answer.why);
    } else {
      NotParkedLeaves(cfg.filing, l, e);
      OnePlace(l, TurnStep(cfg.filing, l, e.here, e.screens, e.answer));
    }
  }

  lemma {:induction false} OnePlace(l: Job, k: Job)
    requires l.state == Developing && k.state != Review && k.index == l.index && k.phases == l.phases
    ensures Pairs(k) == Pairs(l)
  {
  }

  lemma {:induction false} KeptIsLoose(cfg: Config, j: Job)
    requires Inv(cfg, j)
    ensures Loose(j)
  {
  }

  lemma {:induction false} LoopKept(cfg: Config, run: nat -> Job, events: nat -> Event, i: nat)
    requires Inv(cfg, run(0)) && Restful(run(0)) && GoesOn(cfg, run, events)
    ensures Inv(cfg, run(i)) && Restful(run(i)) && LoopStep(cfg, run(i), events(i), run(i + 1))
  {
    assert LoopStep(cfg, run(i), events(i), run(i + 1));
    if i != 0 {
      LoopKept(cfg, run, events, i - 1);
      RestfulStep(cfg, run(i - 1), events(i - 1), run(i));
    }
  }

  lemma {:induction false} RestfulStep(cfg: Config, j: Job, e: Event, k: Job)
    requires Inv(cfg, j) && Restful(j) && LoopStep(cfg, j, e, k)
    ensures Inv(cfg, k) && Restful(k)
  {
    AloneIsTrusted(j, e);
    StepKeeps(cfg, j, e);
    KeptIsLoose(cfg, j);
    LoopKinds(cfg, j, e, k);
    StillRestful(j, k);
  }

  /** Where all phases that name their needs are tied, none can be set behind one it does not
      want, and platforms stand alone, no run goes on for ever. */
  lemma {:induction false} TiedComesToRest(cfg: Config, j: Job)
    requires Inv(cfg, j) && PlatformsAlone(OpenKinds(j), j.want)
    requires Tied(OpenKinds(j), j.want) && !CanSwing(OpenKinds(j), j.want)
    ensures !CanGoOnForever(cfg, j)
  {
    forall run: nat -> Job, events: nat -> Event | GoesOnFrom(cfg, j, run, events) ensures false {
      var open := (i: nat) => |Pairs(run(i))|;
      forall i: nat ensures Below(LeftBy(cfg, run(i + 1), open(i + 1)), LeftBy(cfg, run(i), open(i))) {
        LoopKept(cfg, run, events, i);
        PairsFit(cfg, run(i), events(i), run(i + 1));
        StepLeavesBy(cfg, run(i), events(i), run(i + 1), open(i), open(i + 1));
      }
      LessForEver(cfg, run, open, 0);
    }
  }

  // -- records filed by the phase itself --------------------------------------------------

  lemma {:induction false} ParkPlaced(filing: Filing, l: Job, why: string)
    requires Placed(l) && l.state == Developing && l.index < |l.phases|
    ensures Placed(ParkStep(filing, l, why))
  {
    ParkOnlyFiles(filing, l, why);
    MovePlaced(l, Needing(l.phases, l.index + 1), ParkStep(filing, l, why));
  }

  lemma {:induction false} MovePlaced(l: Job, later: set<nat>, k: Job)
    requires Placed(l) && l.state == Developing && k == MovePhases(l, later).(parked := k.parked, work := NO_WORK, wip := "", state := Developing)
    ensures Placed(k)
  {
    PlainPlace(l);
    PlainPlace(k);
  }

  lemma {:induction false} TriedPlaced(filing: Filing, l: Job, e: Event)
    requires Placed(l) && l.state == Developing && l.index < |l.phases| && e.PhaseTurn?
    ensures Placed(TurnStep(filing, l, e.here, e.screens, e.answer))
  {
    if Parks(l, e) {
      ParkPlaced(filing, l, e.answer.why);
    } else {
      StuckPlaced(filing, l, e);
    }
  }

  lemma {:induction false} StuckPlaced(filing: Filing, l: Job, e: Event)
    requires Placed(l) && l.state == Developing && l.index < |l.phases| && e.PhaseTurn? && !Parks(l, e)
    ensures Placed(TurnStep(filing, l, e.here, e.screens, e.answer))
  {
    if !BuildableHere(InTurn(l), e.here) || e.screens {
      PlainPlace(l);
      PlainPlace(TurnStep(filing, l, e.here, e.screens, e.answer));
    } else {
      AnswerPlaced(filing, l, e.answer);
    }
  }

  lemma {:induction false} AnswerPlaced(filing: Filing, l: Job, answer: Answer)
    requires Placed(l) && l.state == Developing && l.index < |l.phases| && !(answer.Spent? && SomeFree(l))
    ensures Placed(AnswerStep(filing, l, answer))
  {
    var k := AnswerStep(filing, l, answer);
    match answer
    case Written(_) =>
      PlainPlace(l);
      PlainPlace(k);
    case Broken => FailStays(l, k);
    case Looped => AskStays(l, k, Developing);
    case Spent(_) => AskedPlaced(l);
  }

  lemma {:induction false} AskedPlaced(l: Job)
    requires Placed(l) && l.state == Developing
    ensures Placed(AskAboutBudget(l))
  {
    PlainPlace(l);
  }

  lemma {:induction false} TurnLoose(cfg: Config, j: Job, e: Event, k: Job)
    requires Loose(j) && e.PhaseTurn? && j.state == Developing
    requires k == DevelopStep(cfg.filing, j, e.here, e.screens, e.fits, e.answer)
    ensures Loose(k)
  {
    if |j.phases| <= j.index || j.index + 1 in j.parked {
      StoppedLeft(cfg, j, e, k);
      StoppedPlaced(cfg, j, e, k);
    } else {
      DevelopIs(cfg.filing, j, e);
      ReadyIs(j, e.here);
      ReadyLoose(j, e.here);
      MovedPlaced(j, Ready(j, e.here));
      TriedPlaced(cfg.filing, Ready(j, e.here), e);
      TriedLoose(cfg.filing, Ready(j, e.here), e);
    }
  }

  lemma {:induction false} StoppedPlaced(cfg: Config, j: Job, e: Event, k: Job)
    requires Placed(j) && e.PhaseTurn? && j.state == Developing && k == DevelopStep(cfg.filing, j, e.here, e.screens, e.fits, e.answer)
    requires |j.phases| <= j.index || j.index + 1 in j.parked
    ensures Placed(k)
  {
    PlainPlace(j);
  }

  lemma {:induction false} TriedLoose(filing: Filing, l: Job, e: Event)
    requires Ranged(l.phases) && Distinct(l.phases, l.nextObj) && l.state == Developing && l.index < |l.phases| && e.PhaseTurn?
    ensures var k := TurnStep(filing, l, e.here, e.screens, e.answer); Ranged(k.phases) && Distinct(k.phases, k.nextObj)
  {
    if Parks(l, e) {
      ParkedPlace(filing, l, e.answer.why);
      DistinctAfter(l);
    } else {
      NotParkedLeaves(filing, l, e);
    }
  }

  lemma {:induction false} LooseKept(cfg: Config, j: Job, e: Event, k: Job)
    requires Loose(j) && LoopStep(cfg, j, e, k)
    ensures Loose(k)
  {
    if e.PhaseTurn? {
      TurnLoose(cfg, j, e, k);
    } else if e.PlanWritten? {
      PlanRefused(cfg, j, e, k);
      FailStays(j, k);
    } else {
      PhasesLeft(cfg, j, e);
    }
  }

  lemma {:induction false} LoopLoose(cfg: Config, run: nat -> Job, events: nat -> Event, i: nat)
    requires Loose(run(0)) && GoesOn(cfg, run, events)
    ensures Loose(run(i)) && LoopStep(cfg, run(i), events(i), run(i + 1))
  {
    assert LoopStep(cfg, run(i), events(i), run(i + 1));
    if i != 0 {
      LoopLoose(cfg, run, events, i - 1);
      LooseKept(cfg, run(i - 1), events(i - 1), run(i));
    }
  }

  /** Records filed by the phase itself are never lost, so no run goes on for ever then,
      however machines come and go. */
  lemma {:induction false} FiledByPhaseComesToRest(cfg: Config, j: Job)
    requires Inv(cfg, j) && cfg.filing.ByPhase?
    ensures !CanGoOnForever(cfg, j)
  {
    forall run: nat -> Job, events: nat -> Event | GoesOnFrom(cfg, j, run, events) ensures false {
      var open := (i: nat) => |Unset(run(i))|;
      forall i: nat ensures Below(LeftBy(cfg, run(i + 1), open(i + 1)), LeftBy(cfg, run(i), open(i))) {
        LoopLoose(cfg, run, events, i);
        UnsetFits(cfg, run(i), events(i), run(i + 1));
        StepLeavesBy(cfg, run(i), events(i), run(i + 1), open(i), open(i + 1));
      }
      LessForEver(cfg, run, open, 0);
    }
  }
}
