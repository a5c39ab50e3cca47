/**
 The other way an unattended run can go on for ever (`_put_unbuildable_last`, `_park`,
 slipwright/engine.py), and exactly when there is one.

 Phase `p` can be built where phase `n`, which names what it needs and does not want `p`,
 cannot. Out of its budget, `p` is set aside behind `n`; where `n` cannot be built, `n` is
 set behind `p` again, and the record of `p` stays behind under its old number. So `p` is
 tried anew, and set aside again, without end.
 */
module Swings {
  import opened Wrappers
  import opened Plan
  import opened Reordering
  import opened Job
  import opened Safety
  import opened Parking
  import opened Termination
  import opened Livelock
  import opened Turns

  // -- there and back -----------------------------------------------------------------------

  /** Neither is built yet, and `n` names what it needs and cannot be built where `p` can. */
  ghost predicate Opposed(j: Job, here: set<Platform>, p: nat, n: nat)
  {
    && j.index < p <= |j.phases| && j.index < n <= |j.phases|
    && !BuildableHere(At(j.phases, n), here) && BuildableHere(At(j.phases, p), here)
    && At(j.phases, n).needs.Some? && NamesEarlier(j.phases, n)
  }

  /** Phase `p` comes next, and `n` does not have to wait for it. */
  ghost predicate There(j: Job, here: set<Platform>, p: nat, n: nat)
  {
    Opposed(j, here, p, n) && p < n && n !in Needing(j.phases, p) && Heads(j, p)
  }

  /** Phase `n` comes next, and no record stands before `p`. */
  ghost predicate Back(j: Job, here: set<Platform>, p: nat, n: nat)
  {
    && Opposed(j, here, p, n) && n < p && Heads(j, n) && j.work.attempts == 0 && (j.index + 1 == n ==> j.state == Developing)
    && NoneBefore(j, p)
  }

  ghost predicate NoneBefore(j: Job, p: nat)
  {
    forall m: nat :: j.index < m < p ==> m !in j.parked
  }

  // -- there: phase `p` is set aside behind `n` ----------------------------------------------

  lemma {:induction false} AsideRecords(j: Job, p: nat)
    requires Ground(j) && p == j.index + 1 <= |j.phases|
    ensures NoneBefore(SetAside(j), AfterPark(j, p))
  {
    AsideIs(j);
    NeedingHas(j.phases, p);
    forall r: nat | j.index < r < AfterPark(j, p) ensures r !in SetAside(j).parked {
      if r in SetAside(j).parked {
        var m := RecordsLeft(j, r);
        if m != p {
          OrderAfter(j, p, m);
        }
      }
    }
  }

  lemma {:induction false} AsideOpposed(j: Job, here: set<Platform>, p: nat, n: nat)
    requires There(j, here, p, n) && p == j.index + 1
    ensures Opposed(SetAside(j), here, AfterPark(j, p), AfterPark(j, n)) && AfterPark(j, n) < AfterPark(j, p)
  {
    AsideIs(j);
    ParkNumbers(j, p);
    ParkNumbers(j, n);
    PlacesChange(j, p, n);
    OtherIsFree(j, p, n);
    EarlierStays(j, n);
  }

  lemma {:induction false} SetAsideBehind(j: Job, here: set<Platform>, p: nat, n: nat)
    requires There(j, here, p, n) && p == j.index + 1
    ensures Back(SetAside(j), here, AfterPark(j, p), AfterPark(j, n))
  {
    AsideIs(j);
    AsideOpposed(j, here, p, n);
    AsideRecords(j, p);
  }

  // -- and back: what cannot be built here goes last ------------------------------------------

  /** A phase that has one before it set behind it moves up. */
  lemma {:induction false} MovesUp(j: Job, later: set<nat>, n: nat, p: nat)
    requires j.index < n < p <= |j.phases| && n in later && p !in later
    ensures j.index < NumberAfter(j, later, p) < p && NumberAfter(j, later, p) < NumberAfter(j, later, n)
  {
    PlaceCounts(|j.phases|, j.index, later, p);
    CountsAdd(j.index + 1, p, later);
    CountZero(j.index + 1, p, later, true);
    PlaceOrder(|j.phases|, j.index, later, n, p);
  }

  /** The move, and the phase then in turn written. */
  ghost function SetLast(j: Job, here: set<Platform>): Job
    requires j.index <= |j.phases|
  {
    UnbuildableLast(j, here).(state := BuildGate, wip := "")
  }

  lemma {:induction false} LastIsMove(j: Job, here: set<Platform>, p: nat, n: nat)
    requires Opposed(j, here, p, n) && n < p
    ensures UnbuildableLast(j, here) == MovePhases(j, Unbuildable(j.phases, j.index, here))
    ensures n in Unbuildable(j.phases, j.index, here) && p !in Unbuildable(j.phases, j.index, here)
  {
    assert n in UpTo(|j.phases|);
  }

  lemma {:induction false} LastHappens(cfg: Config, j: Job, here: set<Platform>, p: nat, n: nat)
    requires Back(j, here, p, n) && j.index + 1 == n
    ensures Next(cfg, j, PhaseTurn(here, false, true, Written(""))) == Some(SetLast(j, here))
  {
    var l, later := UnbuildableLast(j, here), Unbuildable(j.phases, j.index, here);
    LastIsMove(j, here, p, n);
    var w := FirstIsNotLater(j, later, p);
    assert BuildableHere(At(j.phases, w), here) by {
      assert w in UpTo(|j.phases|);
    }
    LastWrites(cfg, j, l, here);
  }

  lemma {:induction false} LastWrites(cfg: Config, j: Job, l: Job, here: set<Platform>)
    requires Ground(j) && j.state == Developing && j.index < |j.phases| && j.index + 1 !in j.parked && !BuildableHere(InTurn(j), here)
    requires l == UnbuildableLast(j, here) && BuildableHere(InTurn(l), here)
    ensures Next(cfg, j, PhaseTurn(here, false, true, Written(""))) == Some(l.(state := BuildGate, wip := ""))
  {
    assert l.unread[l.index + 1 := 0] == l.unread;
  }

  lemma {:induction false} LastOpposed(j: Job, here: set<Platform>, p: nat, n: nat)
    requires Ground(j) && Opposed(j, here, p, n) && j.index + 1 == n < p
    ensures var later := Unbuildable(j.phases, j.index, here); var k := SetLast(j, here);
      var a, b := NumberAfter(j, later, p), NumberAfter(j, later, n);
      Opposed(k, here, a, b) && a < b && a < p && b !in Needing(k.phases, a)
  {
    var later, k := Unbuildable(j.phases, j.index, here), SetLast(j, here);
    var a, b := NumberAfter(j, later, p), NumberAfter(j, later, n);
    LastIsMove(j, here, p, n);
    MovesUp(j, later, n, p);
    MovedPhase(j, later, p);
    MovedPhase(j, later, n);
    HeadStays(j, later);
    BuiltIsEnough(k.phases, b, a, j.index);
  }

  lemma {:induction false} MovedPhase(j: Job, later: set<nat>, n: nat)
    requires Ranged(j.phases) && j.index <= |j.phases| && 1 <= n <= |j.phases|
    ensures var q := At(MovePhases(j, later).phases, NumberAfter(j, later, n));
      q.platform == At(j.phases, n).platform && (q.needs.None? <==> At(j.phases, n).needs.None?)
  {
    MovesPermute(|j.phases|, j.index, later);
    MoveNumbers(j.phases, MoveOf(j, later), j.nextObj, n);
  }

  lemma {:induction false} LastGround(j: Job, here: set<Platform>)
    requires Ground(j) && j.index < |j.phases| && !BuildableHere(InTurn(j), here)
    ensures Ground(SetLast(j, here))
  {
    ReadyLoose(j, here);
    ReadyIs(j, here);
  }

  lemma {:induction false} SetBehindAgain(j: Job, here: set<Platform>, p: nat, n: nat)
    requires Back(j, here, p, n) && j.index + 1 == n
    ensures var later := Unbuildable(j.phases, j.index, here);
      There(SetLast(j, here), here, NumberAfter(j, later, p), NumberAfter(j, later, n))
  {
    LastGround(j, here);
    LastOpposed(j, here, p, n);
    ReadyIs(j, here);
  }

  // -- without end ----------------------------------------------------------------------------

  ghost predicate SwingsAt(here: set<Platform>, s: Spot)
  {
    There(s.job, here, s.first, s.second) || Back(s.job, here, s.first, s.second)
  }

  function SwingEvent(here: set<Platform>, s: Spot): Event
  {
    if s.first < s.second then Going(s.job, s.first)
    else if s.job.index + 1 == s.second then PhaseTurn(here, false, true, Written(""))
    else Going(s.job, s.second)
  }

  ghost function SwingNext(cfg: Config, here: set<Platform>, s: Spot): Spot
  {
    var j, p, n := s.job, s.first, s.second;
    if cfg.maxAttempts < 2 || !SwingsAt(here, s) then s
    else if p < n then
      if Spendable(j, p) then Spot(SetAside(j), AfterPark(j, p), AfterPark(j, n)) else Spot(Nearer(cfg, j, p), p, n)
    else if j.index + 1 == n then
      var later := Unbuildable(j.phases, j.index, here);
      Spot(SetLast(j, here), NumberAfter(j, later, p), NumberAfter(j, later, n))
    else Spot(Nearer(cfg, j, n), p, n)
  }

  ghost function SwingGood(here: set<Platform>): Spot -> bool
  {
    (s: Spot) => SwingsAt(here, s)
  }

  function SwingEvents(here: set<Platform>): Spot -> Event
  {
    (s: Spot) => SwingEvent(here, s)
  }

  lemma {:induction false} ThereLeads(cfg: Config, here: set<Platform>, s: Spot)
    requires cfg.filing.ByRecord? && 2 <= cfg.maxAttempts && There(s.job, here, s.first, s.second)
    ensures Leads(cfg, SwingGood(here), SwingEvents(here), s, SwingNext(cfg, here, s))
  {
    var j, p, n := s.job, s.first, s.second;
    if Spendable(j, p) {
      OtherIsFree(j, p, n);
      Spends(cfg, j, p, n);
      SetAsideBehind(j, here, p, n);
      AsideIs(j);
      NoSecondAside(here, Spot(SetAside(j), AfterPark(j, p), AfterPark(j, n)));
    } else if SetsAside(j, Going(j, p)) {
      OnlySpent(j, p);
    }
  }

  lemma {:induction false} NoSecondAside(here: set<Platform>, t: Spot)
    requires t.job.work.attempts == 0
    ensures !SetsAside(t.job, SwingEvent(here, t))
  {
    if SetsAside(t.job, Going(t.job, t.first)) {
      OnlySpent(t.job, t.first);
    }
    if SetsAside(t.job, Going(t.job, t.second)) {
      OnlySpent(t.job, t.second);
    }
  }

  lemma {:induction false} BackLeads(cfg: Config, here: set<Platform>, s: Spot)
    requires cfg.filing.ByRecord? && 2 <= cfg.maxAttempts && Back(s.job, here, s.first, s.second)
    ensures Leads(cfg, SwingGood(here), SwingEvents(here), s, SwingNext(cfg, here, s))
  {
    var j, p, n := s.job, s.first, s.second;
    NoSecondAside(here, s);
    if j.index + 1 == n {
      LastHappens(cfg, j, here, p, n);
      SetBehindAgain(j, here, p, n);
    } else {
      StillBack(cfg, j, here, p, n);
    }
  }

  lemma {:induction false} StillBack(cfg: Config, j: Job, here: set<Platform>, p: nat, n: nat)
    requires 2 <= cfg.maxAttempts && Back(j, here, p, n) && j.index + 1 < n
    ensures Back(Nearer(cfg, j, n), here, p, n)
  {
  }

  lemma {:induction false} SwingLeads(cfg: Config, here: set<Platform>, s: Spot)
    requires cfg.filing.ByRecord? && 2 <= cfg.maxAttempts && SwingsAt(here, s)
    ensures Leads(cfg, SwingGood(here), SwingEvents(here), s, SwingNext(cfg, here, s))
  {
    if There(s.job, here, s.first, s.second) {
      ThereLeads(cfg, here, s);
    } else {
      BackLeads(cfg, here, s);
    }
  }

  lemma {:induction false} SwingsLoop(cfg: Config, j: Job, here: set<Platform>, p: nat, n: nat)
    requires cfg.filing.ByRecord? && 2 <= cfg.maxAttempts && (There(j, here, p, n) || Back(j, here, p, n))
    ensures CanLoopForever(cfg, j)
  {
    var good, events := SwingGood(here), SwingEvents(here);
    var next := (s: Spot) => SwingNext(cfg, here, s);
    forall s: Spot | good(s) ensures Leads(cfg, good, events, s, next(s)) {
      SwingLeads(cfg, here, s);
    }
    SustainedLoops(cfg, good, events, next, Spot(j, p, n));
  }

  // -- exactly when ---------------------------------------------------------------------------

  /** The phases not built yet stand as the Architect numbered them, and want what they need. */
  ghost predicate AsNumbered(j: Job)
  {
    forall n: nat :: j.index < n <= |j.phases| ==> At(j.phases, n).uid in j.want && j.want[At(j.phases, n).uid] == WantsOf(j.phases, n)
  }

  /** A plan just approved: nothing past its first phase to build is set aside or written to,
      none of it was tried, and its phases stand as the Architect numbered them. */
  ghost predicate FreshPlan(j: Job)
  {
    && j.state == Developing && j.unread == multiset{} && j.work.attempts == 0 && AsNumbered(j)
    && (forall n: nat :: j.index < n <= |j.phases| ==> n !in j.parked)
  }

  lemma {:induction false} NeededIsWanted(j: Job, n: nat, d: nat)
    requires AsNumbered(j) && Backward(j.phases) && j.index < n && Needs(j.phases, 0, n, d)
    ensures 1 <= d < n && Wanted(j.want, At(j.phases, d).uid, At(j.phases, n).uid)
  {
    if At(j.phases, n).needs.Some? {
      assert States(j.phases, n, d);
    }
  }

  /** What depends on an unbuilt phase wants it. */
  lemma {:induction false} DependedIsWanted(j: Job, n: nat, k: nat)
    requires AsNumbered(j) && Backward(j.phases) && j.index < k && DependsOn(j.phases, 0, n, k)
    ensures 1 <= k <= n <= |j.phases|
    ensures WantsDeep(j.want, At(j.phases, k).uid, At(j.phases, n).uid)
    decreases n
  {
    DependsOnEarlier(j.phases, 0, n, k);
    var u, v := At(j.phases, k).uid, At(j.phases, n).uid;
    if n == k {
      WantsItself(j.want, u);
    } else {
      var d := DependsOnLast(j.phases, 0, n, k);
      DependsOnEarlier(j.phases, 0, d, k);
      NeededIsWanted(j, n, d);
      DependedIsWanted(j, d, k);
      WantsOneMore(j.want, u, At(j.phases, d).uid, v);
    }
  }

  lemma {:induction false} WantsOneMore(want: Wants, u: nat, d: nat, v: nat)
    requires WantsDeep(want, u, d) && Wanted(want, d, v)
    ensures WantsDeep(want, u, v)
  {
    var c :| WantLinks(want, c, u, d);
    assert WantLinks(want, c + [v], u, v);
  }

  /** An unbuilt phase that does not want another does not have to wait for it. */
  lemma {:induction false} NotWaiting(j: Job, k: nat, n: nat)
    requires AsNumbered(j) && Backward(j.phases) && j.index < k <= |j.phases| && 1 <= n <= |j.phases|
    requires !WantsDeep(j.want, At(j.phases, k).uid, At(j.phases, n).uid)
    ensures n !in Needing(j.phases, k)
  {
    NeedingIs(j.phases, k);
    if DependsOn(j.phases, 0, n, k) {
      DependedIsWanted(j, n, k);
    }
  }

  lemma {:induction false} AllEarlier(ps: seq<Phase>, n: nat)
    requires Backward(ps)
    ensures NamesEarlier(ps, n)
  {
  }

  lemma {:induction false} FreshHeads(j: Job, h: nat)
    requires PlanKept(j) && FreshPlan(j) && j.index < h <= |j.phases|
    ensures Heads(j, h)
  {
  }

  lemma {:induction false} UntiedPair(j: Job) returns (x: nat, y: nat)
    requires PlanKept(j) && !Tied(OpenKinds(j), j.want)
    ensures Cursor(j) < x < y <= |j.phases| && At(j.phases, x).needs.Some? && At(j.phases, y).needs.Some?
    ensures !WantsDeep(j.want, At(j.phases, x).uid, At(j.phases, y).uid)
  {
    var k, l :| k in OpenKinds(j) && l in OpenKinds(j) && k.names && l.names && k.uid != l.uid && Apart(j.want, k.uid, l.uid);
    var a: nat :| Cursor(j) < a <= |j.phases| && KindOf(At(j.phases, a)) == k;
    var b: nat :| Cursor(j) < b <= |j.phases| && KindOf(At(j.phases, b)) == l;
    x, y := if a < b then a else b, if a < b then b else a;
  }

  lemma {:induction false} UntiedTakeTurns(cfg: Config, j: Job)
    requires cfg.filing.ByRecord? && 2 <= cfg.maxAttempts && PlanKept(j) && FreshPlan(j) && !Tied(OpenKinds(j), j.want)
    ensures CanLoopForever(cfg, j)
  {
    var x, y := UntiedPair(j);
    NotWaiting(j, x, y);
    FreshHeads(j, x);
    AllEarlier(j.phases, x);
    AllEarlier(j.phases, y);
    TurnsLoop(cfg, j, x, y);
  }

  /** Where the one can be built and the other cannot. */
  function HereFor(p: Kind): set<Platform>
  {
    if p.platform.Some? then {p.platform.value} else {}
  }

  lemma {:induction false} PartedPair(j: Job) returns (here: set<Platform>, p: nat, n: nat)
    requires CanSwing(OpenKinds(j), j.want) && j.state == Developing
    ensures j.index < p <= |j.phases| && j.index < n <= |j.phases| && At(j.phases, n).needs.Some?
    ensures BuildableHere(At(j.phases, p), here) && !BuildableHere(At(j.phases, n), here)
    ensures !WantsDeep(j.want, At(j.phases, p).uid, At(j.phases, n).uid)
  {
    var k, l :| k in OpenKinds(j) && l in OpenKinds(j) && l.names && Parted(k, l) && !WantsDeep(j.want, k.uid, l.uid);
    p :| j.index < p <= |j.phases| && KindOf(At(j.phases, p)) == k;
    n :| j.index < n <= |j.phases| && KindOf(At(j.phases, n)) == l;
    here := HereFor(k);
  }

  lemma {:induction false} PartedSwing(cfg: Config, j: Job)
    requires cfg.filing.ByRecord? && 2 <= cfg.maxAttempts && PlanKept(j) && FreshPlan(j) && CanSwing(OpenKinds(j), j.want)
    ensures CanLoopForever(cfg, j)
  {
    var here, p, n := PartedPair(j);
    AllEarlier(j.phases, n);
    if p < n {
      NotWaiting(j, p, n);
      FreshHeads(j, p);
    } else {
      FreshHeads(j, n);
    }
    SwingsLoop(cfg, j, here, p, n);
  }

  /** Whatever else is so of a fresh plan: where two of its phases name what they need and
      neither wants the other, or one that names what it needs does not want one that can be
      built where it cannot, a run can go on for ever, coming back to the run loop each time. */
  lemma {:induction false} LoopsWhere(cfg: Config, j: Job)
    requires cfg.filing.ByRecord? && 2 <= cfg.maxAttempts && PlanKept(j) && FreshPlan(j)
    requires !Tied(OpenKinds(j), j.want) || CanSwing(OpenKinds(j), j.want)
    ensures CanLoopForever(cfg, j)
  {
    if !Tied(OpenKinds(j), j.want) {
      UntiedTakeTurns(cfg, j);
    } else {
      PartedSwing(cfg, j);
    }
  }

  lemma {:induction false} LoopingGoesOn(cfg: Config, j: Job)
    requires CanLoopForever(cfg, j)
    ensures CanGoOnForever(cfg, j)
  {
    var run: nat -> Job, events: nat -> Event :| LoopsOn(cfg, j, run, events);
    assert GoesOnFrom(cfg, j, run, events);
  }

  /** Where no phase that can be built somewhere wants one that cannot, an unattended run of a
      fresh plan can go on for ever exactly when two of its phases name what they need and
      neither wants the other, or one that does can be set behind one it does not want; and
      then it can without setting phases aside from within one another. */
  lemma {:induction false} LivelockExactly(cfg: Config, j: Job)
    requires cfg.filing.ByRecord? && 2 <= cfg.maxAttempts && Inv(cfg, j) && FreshPlan(j) && PlatformsAlone(OpenKinds(j), j.want)
    ensures CanGoOnForever(cfg, j) <==> !Tied(OpenKinds(j), j.want) || CanSwing(OpenKinds(j), j.want)
    ensures CanLoopForever(cfg, j) <==> !Tied(OpenKinds(j), j.want) || CanSwing(OpenKinds(j), j.want)
  {
    if !Tied(OpenKinds(j), j.want) || CanSwing(OpenKinds(j), j.want) {
      LoopsWhere(cfg, j);
      LoopingGoesOn(cfg, j);
    } else {
      TiedComesToRest(cfg, j);
      if CanLoopForever(cfg, j) {
        LoopingGoesOn(cfg, j);
      }
    }
  }

  /** What the exact condition relies on is what the engine trusts the Architect with, said
      of the plan alone: whatever can be built at a time, it wants nothing that cannot. */
  lemma {:induction false} AloneIs(kinds: set<Kind>, want: Wants)
    ensures PlatformsAlone(kinds, want)
      <==> forall here, a, b :: a in kinds && b in kinds && Wanted(want, a.uid, b.uid) && Suits(here, b) ==> Suits(here, a)
  {
    forall a, b | a in kinds && b in kinds && Wanted(want, a.uid, b.uid) && Parted(b, a)
      ensures exists here :: Suits(here, b) && !Suits(here, a)
    {
      var here := HereFor(b);
      assert Suits(here, b) && !Suits(here, a);
    }
  }
  /** The Architect's plan, approved as it stands, is fresh, be it the first or one made again
      behind phases that are kept, once no record of an older plan stands past those. */
  lemma {:induction false} ApprovedIsFresh(cfg: Config, j: Job, drafts: seq<Draft>, empty: bool)
    requires Inv(cfg, j) && j.state == Architecture && PlanStep(cfg, j, drafts).state == AwaitArchitecture
    requires j.unread == multiset{} && forall n: nat :: n in j.parked ==> n <= KeptOf(j)
    ensures var k := PlanStep(cfg, j, drafts);
      ApproveStep(k, false, empty).Some? && var l := ApproveStep(k, false, empty).value;
      l.index == KeptOf(j) && Inv(cfg, l) && FreshPlan(l)
  {
    var k := PlanStep(cfg, j, drafts);
    PlanKeeps(cfg, j, drafts);
    ApproveKeeps(cfg, k, false, empty);
    TakenIsFresh(cfg, j, drafts, ApproveStep(k, false, empty).value);
  }

  lemma {:induction false} TakenIsFresh(cfg: Config, j: Job, drafts: seq<Draft>, l: Job)
    requires PlanKept(j) && KeptOf(j) <= |j.phases| && PlanStep(cfg, j, drafts).state == AwaitArchitecture
    requires j.unread == multiset{} && forall n: nat :: n in j.parked ==> n <= KeptOf(j)
    requires var k := PlanStep(cfg, j, drafts); l == k.(state := Developing, rejects := 0, replanFrom := None, approved := k.plan)
    ensures l.index == KeptOf(j) && FreshPlan(l)
  {
    KeptWhole(j, drafts);
    MadeAsNumbered(j, KeptOf(j), Whole(j.phases, KeptOf(j), drafts), l);
  }

  lemma {:induction false} MadeAsNumbered(j: Job, kept: nat, whole: seq<Draft>, l: Job)
    requires PlanKept(j) && KeptRun(j, kept, whole) == kept
    requires l.phases == Compose(j, kept, whole) && l.want == ComposeWants(j, l.phases) && l.index == kept
    ensures AsNumbered(l)
  {
    ComposeDistinct(j, kept, whole);
    forall n: nat | kept < n <= |l.phases| ensures At(l.phases, n).uid in l.want && l.want[At(l.phases, n).uid] == WantsOf(l.phases, n) {
      KeptIsWanted(j, kept, whole, n);
      WantsLookup(j, l.phases, j.nextObj + |whole|, n);
    }
  }
}
