/**
 The first way an unattended run can go on for ever (`_park`, slipwright/engine.py): two
 phases that name what they need, neither of which has to wait for the other, are tried in
 turn. Each is written, built red once and then out of its budget, so the handlers come back
 to the run loop between two phases that are set aside.
 */
module Turns {
  import opened Wrappers
  import opened Plan
  import opened Reordering
  import opened Job
  import opened Safety
  import opened Parking
  import opened Termination
  import opened Livelock

  // -- runs that keep themselves going ----------------------------------------------------

  /** A development, and two of its phases. */
  datatype Spot = Spot(job: Job, first: nat, second: nat)

  /** What is good leads to what is good, in a step that sets no phase aside twice running. */
  ghost predicate Sustains(cfg: Config, good: Spot -> bool, events: Spot -> Event, next: Spot -> Spot)
  {
    forall s {:trigger Leads(cfg, good, events, s, next(s))} :: good(s) ==> Leads(cfg, good, events, s, next(s))
  }

  ghost predicate Leads(cfg: Config, good: Spot -> bool, events: Spot -> Event, s: Spot, t: Spot)
  {
    good(t) && LoopStep(cfg, s.job, events(s), t.job) && !(SetsAside(s.job, events(s)) && SetsAside(t.job, events(t)))
  }

  ghost function Iterate(next: Spot -> Spot, s: Spot, i: nat): Spot
  {
    if i == 0 then s else next(Iterate(next, s, i - 1))
  }

  lemma {:induction false} IterateGood(cfg: Config, good: Spot -> bool, events: Spot -> Event, next: Spot -> Spot, s: Spot, i: nat)
    requires Sustains(cfg, good, events, next) && good(s)
    ensures good(Iterate(next, s, i)) && Leads(cfg, good, events, Iterate(next, s, i), Iterate(next, s, i + 1))
  {
    var t := Iterate(next, s, i);
    if i != 0 {
      IterateGood(cfg, good, events, next, s, i - 1);
    }
    assert Leads(cfg, good, events, t, next(t));
  }

  lemma {:induction false} SustainedLoops(cfg: Config, good: Spot -> bool, events: Spot -> Event, next: Spot -> Spot, s: Spot)
    requires Sustains(cfg, good, events, next) && good(s)
    ensures CanLoopForever(cfg, s.job)
  {
    var run := (i: nat) => Iterate(next, s, i).job;
    var steps := (i: nat) => events(Iterate(next, s, i));
    forall i: nat ensures LoopStep(cfg, run(i), steps(i), run(i + 1)) && !Nested(run, steps, i) {
      IterateGood(cfg, good, events, next, s, i);
    }
    assert LoopsOn(cfg, s.job, run, steps);
  }

  /** A run with one step more before it. */
  function Longer<T>(first: T, rest: nat -> T): nat -> T
  {
    (i: nat) => if i == 0 then first else rest(i - 1)
  }

  lemma {:induction false} LongerSteps(cfg: Config, j: Job, e: Event, k: Job, run: nat -> Job, events: nat -> Event, i: nat)
    requires LoopStep(cfg, j, e, k) && !SetsAside(j, e) && LoopsOn(cfg, k, run, events)
    ensures var before, steps := Longer(j, run), Longer(e, events);
      LoopStep(cfg, before(i), steps(i), before(i + 1)) && !Nested(before, steps, i)
  {
    if i != 0 {
      assert LoopStep(cfg, run(i - 1), events(i - 1), run(i - 1 + 1)) && !Nested(run, events, i - 1);
    }
  }

  /** A step that sets nothing aside can go before a run without end. */
  lemma {:induction false} LoopsBefore(cfg: Config, j: Job, e: Event, k: Job)
    requires LoopStep(cfg, j, e, k) && !SetsAside(j, e) && CanLoopForever(cfg, k)
    ensures CanLoopForever(cfg, j)
  {
    var run: nat -> Job, events: nat -> Event :| LoopsOn(cfg, k, run, events);
    var before, steps := Longer(j, run), Longer(e, events);
    forall i: nat ensures LoopStep(cfg, before(i), steps(i), before(i + 1)) && !Nested(before, steps, i) {
      LongerSteps(cfg, j, e, k, run, events, i);
    }
    assert LoopsOn(cfg, j, before, steps);
  }

  // -- as far as the first of the two -----------------------------------------------------

  /** Every phase and record is there once, and nobody has written anything. */
  ghost predicate Ground(j: Job)
  {
    Ranged(j.phases) && Distinct(j.phases, j.nextObj) && j.unread == multiset{}
  }

  /** Phase `n` names earlier phases only. */
  ghost predicate NamesEarlier(ps: seq<Phase>, n: nat)
  {
    forall d: nat :: States(ps, n, d) ==> d < n
  }

  /** Nothing was built red yet, unless it is phase `h`, once. */
  predicate Trying(j: Job, h: nat)
  {
    || (j.state == Developing && (j.work.attempts == 0 || (j.work.attempts == 1 && j.index + 1 == h)))
    || (j.state == BuildGate && j.work.attempts == 0)
  }

  /** Phase `h` comes next, but for phases that were not set aside either. */
  ghost predicate Heads(j: Job, h: nat)
  {
    Ground(j) && j.index < h <= |j.phases| && Trying(j, h) && forall n: nat :: j.index < n <= h ==> n !in j.parked
  }

  const EVERYWHERE: set<Platform> := {Ios, Android}

  lemma {:induction false} BuildableEverywhere(p: Phase)
    ensures BuildableHere(p, EVERYWHERE)
  {
    if p.platform.Some? {
      assert p.platform.value == Ios || p.platform.value == Android;
    }
  }

  /** Every build passes, and nothing is reviewed. */
  const ALL_PASS := Builds((i: nat) => Passing, (i: nat) => Blamed(""), false, Fix)

  /** Every build fails, and the code is to be fixed. */
  const ALL_FAIL := Builds((i: nat) => Failing(""), (i: nat) => Blamed(""), false, Fix)

  /** Phases before `h` are built at once; `h` is built red, and then its budget is spent. */
  function Going(j: Job, h: nat): Event
  {
    if j.state == BuildGate then GateRun(if j.index + 1 == h then ALL_FAIL else ALL_PASS)
    else PhaseTurn(EVERYWHERE, false, true, if j.index + 1 == h && j.work.attempts == 1 then Spent("") else Written(""))
  }

  /** The phases, their records and the plan are what they were. */
  ghost predicate SameGround(j: Job, k: Job)
  {
    k.phases == j.phases && k.parked == j.parked && k.nextObj == j.nextObj && k.want == j.want && k.plan == j.plan
  }

  /** Phase `h` is out of its budget now. */
  predicate Spendable(j: Job, h: nat)
  {
    j.state == Developing && j.index + 1 == h && j.work.attempts == 1
  }

  lemma {:induction false} Writes(cfg: Config, j: Job, h: nat)
    requires Heads(j, h) && j.state == Developing && j.work.attempts == 0
    ensures Next(cfg, j, Going(j, h)) == Some(j.(state := BuildGate, wip := ""))
  {
    BuildableEverywhere(InTurn(j));
    assert j.unread[j.index + 1 := 0] == j.unread;
  }

  lemma {:induction false} Passes(cfg: Config, j: Job, h: nat)
    requires Heads(j, h) && j.state == BuildGate && j.index + 1 < h
    ensures var e := Going(j, h); Next(cfg, j, e) == Some(GateStep(cfg, j, Green(j.wip, false)))
    ensures var k := GateStep(cfg, j, Green(j.wip, false)); Heads(k, h) && SameGround(j, k) && k.work.attempts == 0 && k.state == Developing
  {
    assert GateOf(cfg, j, ALL_PASS) == Green(j.wip, false);
  }

  lemma {:induction false} Reddens(cfg: Config, j: Job, h: nat)
    requires Heads(j, h) && j.state == BuildGate && j.index + 1 == h && 2 <= cfg.maxAttempts
    ensures var gate := GateOf(cfg, j, ALL_FAIL);
      Next(cfg, j, Going(j, h)) == Some(GateStep(cfg, j, gate)) && Heads(GateStep(cfg, j, gate), h) && SameGround(j, GateStep(cfg, j, gate))
  {
    var gate := GateOf(cfg, j, ALL_FAIL);
    assert gate.Red? && gate.choice == Fix;
  }
  /** One step nearer to phase `h` being out of its budget. */
  ghost function Nearer(cfg: Config, j: Job, h: nat): (k: Job)
    requires Heads(j, h) && !Spendable(j, h) && 2 <= cfg.maxAttempts
    ensures Heads(k, h) && SameGround(j, k) && Next(cfg, j, Going(j, h)) == Some(k)
    ensures j.index + 1 < h && j.work.attempts == 0 ==> k.work.attempts == 0 && (k.index + 1 == h ==> k.state == Developing)
  {
    if j.state == Developing then
      Writes(cfg, j, h);
      j.(state := BuildGate, wip := "")
    else if j.index + 1 < h then
      Passes(cfg, j, h);
      GateStep(cfg, j, Green(j.wip, false))
    else
      Reddens(cfg, j, h);
      GateStep(cfg, j, GateOf(cfg, j, ALL_FAIL))
  }

  // -- set aside ----------------------------------------------------------------------------

  ghost function SetAside(j: Job): Job
    requires j.index < |j.phases|
  {
    ParkStep(ByRecord, j, "")
  }

  lemma {:induction false} Spends(cfg: Config, j: Job, h: nat, f: nat)
    requires cfg.filing.ByRecord? && Heads(j, h) && Spendable(j, h) && f in Free(j)
    ensures Next(cfg, j, Going(j, h)) == Some(SetAside(j))
  {
    BuildableEverywhere(InTurn(j));
    var e := Going(j, h);
    DevelopIs(cfg.filing, j, e);
  }

  lemma {:induction false} AsideIs(j: Job)
    requires Ground(j) && j.index < |j.phases|
    ensures var k := SetAside(j);
      && Ground(k) && k.state == Developing && k.work.attempts == 0 && k.index == j.index && k.phases == PhasesAfter(j)
      && k.plan == j.plan
  {
    ParkedPlace(ByRecord, j, "");
    ParkOnlyFiles(ByRecord, j, "");
    DistinctAfter(j);
  }

  /** A phase that names its needs has no record once another is set aside. */
  lemma {:induction false} RecordsLeft(j: Job, r: nat) returns (n: nat)
    requires Ground(j) && j.index < r <= |j.phases| && r in SetAside(j).parked
    ensures j.index < n <= |j.phases| && AfterPark(j, n) == r
    ensures n == j.index + 1 || (n in j.parked && At(j.phases, n).needs.None?)
  {
    n := UnparkedWas(j, r);
    ParkFiles(ByRecord, j, "", n);
  }

  lemma {:induction false} ParkIsMove(j: Job, n: nat)
    requires j.index < |j.phases| && 1 <= n <= |j.phases|
    ensures AfterPark(j, n) == NumberAfter(j, Needing(j.phases, j.index + 1), n)
  {
  }

  lemma {:induction false} PhasesMove(j: Job)
    requires j.index < |j.phases|
    ensures PhasesAfter(j) == MovePhases(j, Needing(j.phases, j.index + 1)).phases
  {
  }

  /** What is free goes ahead, and two phases of one group stay as they were. */
  lemma {:induction false} OrderAfter(j: Job, a: nat, b: nat)
    requires j.index < |j.phases| && 1 <= a < b <= |j.phases|
    ensures AfterPark(j, b) < AfterPark(j, a) <==> Overtaken(j.index, Needing(j.phases, j.index + 1), a, b)
    ensures AfterPark(j, a) != AfterPark(j, b)
  {
    ParkIsMove(j, a);
    ParkIsMove(j, b);
    PlaceOrder(|j.phases|, j.index, Needing(j.phases, j.index + 1), a, b);
  }

  /** What a moved phase says it needs is where something it said before is now. */
  lemma {:induction false} StatedWas(j: Job, later: set<nat>, n: nat, e: nat) returns (d: nat)
    requires Ranged(j.phases) && j.index <= |j.phases| && 1 <= n <= |j.phases|
    requires States(MovePhases(j, later).phases, NumberAfter(j, later, n), e)
    ensures States(j.phases, n, d) && 1 <= d <= |j.phases| && NumberAfter(j, later, d) == e
  {
    MovesPermute(|j.phases|, j.index, later);
    d := MovedNeed(j.phases, MoveOf(j, later), j.nextObj, n, e);
  }

  lemma {:induction false} MovedNeed(ps: seq<Phase>, m: seq<nat>, nextObj: nat, n: nat, e: nat) returns (d: nat)
    requires Permutes(m, |ps|) && Ranged(ps) && 1 <= n <= |ps| && n in m && States(Reordered(ps, m, nextObj), Place(m, n), e)
    ensures States(ps, n, d) && 1 <= d <= |ps| && d in m && Place(m, d) == e
  {
    ReorderKeepsPhase(ps, m, nextObj, n);
    d :| States(ps, n, d) && d in m && Place(m, d) == e;
  }

  lemma {:induction false} StatedParked(j: Job, n: nat, e: nat) returns (d: nat)
    requires Ranged(j.phases) && j.index < |j.phases| && 1 <= n <= |j.phases| && States(PhasesAfter(j), AfterPark(j, n), e)
    ensures States(j.phases, n, d) && 1 <= d <= |j.phases| && AfterPark(j, d) == e
  {
    ParkIsMove(j, n);
    PhasesMove(j);
    d := StatedWas(j, Needing(j.phases, j.index + 1), n, e);
    ParkIsMove(j, d);
  }

  /** A free phase that names earlier phases only still does: what it names is free too, or built. */
  lemma {:induction false} EarlierStays(j: Job, n: nat)
    requires Ranged(j.phases) && j.index < |j.phases| && n in Free(j) && NamesEarlier(j.phases, n)
    ensures NamesEarlier(PhasesAfter(j), AfterPark(j, n))
  {
    FreeIsNamer(j, n);
    NamerWaits(j.phases, j.index + 1, n);
    forall e: nat | States(PhasesAfter(j), AfterPark(j, n), e) ensures e < AfterPark(j, n) {
      var d := StatedParked(j, n, e);
      OrderAfter(j, d, n);
    }
  }

  /** The phase that was in turn names built phases only, and so it still does. */
  lemma {:induction false} HeadStays(j: Job, later: set<nat>)
    requires Ranged(j.phases) && j.index < |j.phases| && NamesEarlier(j.phases, j.index + 1)
    ensures NamesBuilt(MovePhases(j, later).phases, NumberAfter(j, later, j.index + 1), j.index)
  {
    var r := NumberAfter(j, later, j.index + 1);
    forall e: nat | States(MovePhases(j, later).phases, r, e) ensures e <= j.index {
      var d := StatedWas(j, later, j.index + 1, e);
      BuiltStays(j, later, d);
    }
  }

  lemma {:induction false} BuiltStays(j: Job, later: set<nat>, d: nat)
    requires 1 <= d <= j.index <= |j.phases|
    ensures NumberAfter(j, later, d) == d
  {
    MovesPermute(|j.phases|, j.index, later);
    SamePlaceNumber(MoveOf(j, later), d, NumberAfter(j, later, d));
  }

  /** Phase `r` names phases up to `built` only. */
  ghost predicate NamesBuilt(ps: seq<Phase>, r: nat, built: nat)
  {
    forall e: nat :: States(ps, r, e) ==> e <= built
  }

  lemma {:induction false} BuiltIsEnough(ps: seq<Phase>, r: nat, k: nat, built: nat)
    requires built < k < r <= |ps| && At(ps, r).needs.Some? && NamesBuilt(ps, r, built)
    ensures r !in Needing(ps, k) && NamesEarlier(ps, r)
  {
    NamerWaits(ps, k, r);
    NeedingHas(ps, k);
  }

  // -- two phases that take turns -----------------------------------------------------------

  /** Phases `x` and then `y` name what they need, `y` does not have to wait for `x`, and only
      `y` may have been set aside. */
  ghost predicate TakeTurns(j: Job, x: nat, y: nat)
  {
    && Heads(j, x) && x < y <= |j.phases| && At(j.phases, x).needs.Some? && At(j.phases, y).needs.Some?
    && NamesEarlier(j.phases, x) && NamesEarlier(j.phases, y) && y !in Needing(j.phases, x)
    && forall n: nat :: j.index < n <= |j.phases| && n in j.parked ==> n == y
  }

  lemma {:induction false} OtherIsFree(j: Job, x: nat, y: nat)
    requires x == j.index + 1 && x < y <= |j.phases| && y !in Needing(j.phases, x)
    ensures y in Free(j)
  {
    assert y in UpTo(|j.phases|);
  }

  /** They change places. */
  lemma {:induction false} PlacesChange(j: Job, x: nat, y: nat)
    requires Ranged(j.phases) && x == j.index + 1 && x < y <= |j.phases| && y !in Needing(j.phases, x)
    ensures j.index < AfterPark(j, y) < AfterPark(j, x)
  {
    ParkNumbers(j, y);
    NeedingHas(j.phases, x);
    OrderAfter(j, x, y);
  }

  lemma {:induction false} RecordsChange(j: Job, x: nat, y: nat)
    requires TakeTurns(j, x, y) && x == j.index + 1
    ensures forall r: nat :: j.index < r <= |j.phases| && r in SetAside(j).parked ==> r == AfterPark(j, x)
  {
    forall r: nat | j.index < r <= |j.phases| && r in SetAside(j).parked ensures r == AfterPark(j, x) {
      RecordChange(j, x, y, r);
    }
  }

  lemma {:induction false} RecordChange(j: Job, x: nat, y: nat, r: nat)
    requires TakeTurns(j, x, y) && x == j.index + 1 && j.index < r <= |j.phases| && r in SetAside(j).parked
    ensures r == AfterPark(j, x)
  {
    var n := RecordsLeft(j, r);
  }

  lemma {:induction false} HeadNames(j: Job, x: nat, a: nat)
    requires Ranged(j.phases) && x == j.index + 1 <= |j.phases| && NamesEarlier(j.phases, x) && At(j.phases, x).needs.Some?
    requires j.index < a < AfterPark(j, x)
    ensures At(PhasesAfter(j), AfterPark(j, x)).needs.Some?
    ensures NamesEarlier(PhasesAfter(j), AfterPark(j, x)) && AfterPark(j, x) !in Needing(PhasesAfter(j), a)
  {
    ParkNumbers(j, x);
    ParkIsMove(j, x);
    PhasesMove(j);
    HeadStays(j, Needing(j.phases, x));
    BuiltIsEnough(PhasesAfter(j), AfterPark(j, x), a, j.index);
  }

  lemma {:induction false} NamesChange(j: Job, x: nat, y: nat)
    requires TakeTurns(j, x, y) && x == j.index + 1
    ensures var qs, a, b := PhasesAfter(j), AfterPark(j, y), AfterPark(j, x);
      At(qs, a).needs.Some? && At(qs, b).needs.Some? && NamesEarlier(qs, a) && NamesEarlier(qs, b) && b !in Needing(qs, a)
  {
    ParkNumbers(j, y);
    PlacesChange(j, x, y);
    OtherIsFree(j, x, y);
    EarlierStays(j, y);
    HeadNames(j, x, AfterPark(j, y));
  }

  /** The first of the two is set aside, and the record of the second is lost on the way. */
  lemma {:induction false} TurnsAround(j: Job, x: nat, y: nat)
    requires TakeTurns(j, x, y) && Spendable(j, x)
    ensures TakeTurns(SetAside(j), AfterPark(j, y), AfterPark(j, x))
  {
    AsideIs(j);
    PlacesChange(j, x, y);
    NamesChange(j, x, y);
    RecordsChange(j, x, y);
  }

  ghost predicate TurnsAt(s: Spot)
  {
    TakeTurns(s.job, s.first, s.second)
  }

  ghost function TurnsNext(cfg: Config, s: Spot): Spot
  {
    if cfg.maxAttempts < 2 || !TurnsAt(s) then s
    else if Spendable(s.job, s.first) then Spot(SetAside(s.job), AfterPark(s.job, s.second), AfterPark(s.job, s.first))
    else Spot(Nearer(cfg, s.job, s.first), s.first, s.second)
  }

  function GoingAt(s: Spot): Event
  {
    Going(s.job, s.first)
  }

  lemma {:induction false} StillTakeTurns(cfg: Config, j: Job, x: nat, y: nat)
    requires 2 <= cfg.maxAttempts && TakeTurns(j, x, y) && !Spendable(j, x)
    ensures TakeTurns(Nearer(cfg, j, x), x, y)
  {
  }

  lemma {:induction false} OnlySpent(j: Job, h: nat)
    requires SetsAside(j, Going(j, h))
    ensures Spendable(j, h)
  {
  }

  lemma {:induction false} TurnsLead(cfg: Config, s: Spot)
    requires cfg.filing.ByRecord? && 2 <= cfg.maxAttempts && TurnsAt(s)
    ensures Leads(cfg, TurnsAt, GoingAt, s, TurnsNext(cfg, s))
  {
    var j, x, y := s.job, s.first, s.second;
    if Spendable(j, x) {
      OtherIsFree(j, x, y);
      Spends(cfg, j, x, y);
      TurnsAround(j, x, y);
      AsideIs(j);
      if SetsAside(SetAside(j), Going(SetAside(j), AfterPark(j, y))) {
        OnlySpent(SetAside(j), AfterPark(j, y));
      }
    } else {
      StillTakeTurns(cfg, j, x, y);
      if SetsAside(j, Going(j, x)) {
        OnlySpent(j, x);
      }
    }
  }

  lemma {:induction false} TurnsLoop(cfg: Config, j: Job, x: nat, y: nat)
    requires cfg.filing.ByRecord? && 2 <= cfg.maxAttempts && TakeTurns(j, x, y)
    ensures CanLoopForever(cfg, j)
  {
    var next := (s: Spot) => TurnsNext(cfg, s);
    forall s: Spot | TurnsAt(s) ensures Leads(cfg, TurnsAt, GoingAt, s, next(s)) {
      TurnsLead(cfg, s);
    }
    SustainedLoops(cfg, TurnsAt, GoingAt, next, Spot(j, x, y));
  }
}
