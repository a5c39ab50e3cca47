/**
 Where the engine, as it is written, does not keep what the rest of it relies on: exactly
 when, and a smallest development it happens to.
 */
module Limits {
  import opened Wrappers
  import opened Plan
  import opened Reordering
  import opened Job
  import opened Safety
  import opened Termination
  import opened Livelock
  import opened Turns
  import opened Parking
  import opened Swings
  import opened Belonging
  import WriteAhead

  // -- editing a plan that was made again -----------------------------------------------

  /** No phase of the log is newer than the plan's phases. */
  lemma {:induction false} NewIsUnlogged(j: Job, u: nat)
    requires PlanKept(j) && LinearExtension(j.log, j.want) && j.nextUid <= u
    ensures u !in Uids(j.log)
  {
    forall k: nat | k < |j.log| ensures UidOf(j.log[k]) != u {
      assert UidOf(j.log[k]) in j.want;
    }
  }

  /** A person's edit leaves the cursor behind the phases kept, whatever they edited: those
      before it are settled exactly when the edit leaves every kept phase as it was. */
  lemma {:induction false} EditKeepsSettled(cfg: Config, j: Job, drafts: seq<Draft>)
    requires Inv(cfg, j) && EditStep(j, drafts).Some?
    ensures var k := EditStep(j, drafts).value;
      SettledUpTo(k, k.index) <==> KeptRun(j, KeptOf(j), drafts) == KeptOf(j)
  {
    var k, kept, run := EditStep(j, drafts).value, KeptOf(j), KeptRun(j, KeptOf(j), drafts);
    if run == kept {
      EditKeeps(cfg, j, drafts);
    } else if kept <= |drafts| {
      ComposeUids(j, kept, drafts, run + 1);
      NewIsUnlogged(j, j.nextUid + run);
      assert At(k.phases, run + 1).uid == j.nextUid + run;
    }
  }

  lemma {:induction false} NothingBuilt(j: Job)
    requires PlanKept(j) && j.state == Developing && PlanApproved(j) && j.index == 0 && j.log == [] && j.builderResume == Developing
    requires j.autoApprovals == 0
    ensures Inv(CONFIG, j)
  {
  }

  const CONFIG := Config(ByRecord, 3, 2, 3, 3, 2, 3)

  function Backend(uid: nat, needs: Option<set<nat>>, file: string): Phase
  {
    Phase(uid, uid, needs, None, [file])
  }

  /** One phase built, and the plan made again from the second. */
  const REPLANNED := NEW_JOB.(
    state := AwaitArchitecture, phases := [Backend(0, Some({}), "a"), Backend(1, Some({}), "b")], index := 1,
    nextObj := 2, nextUid := 2, replanFrom := Some(1), plan := 2, approved := 1,
    want := map[0 := {}, 1 := {}], log := [Built(0)])

  lemma {:induction false} ReplannedKept()
    ensures Inv(CONFIG, REPLANNED)
  {
    var ps := REPLANNED.phases;
    assert NamedBy(ps, 1) == {} && NamedBy(ps, 2) == {};
    assert UidOf(REPLANNED.log[0]) == 0;
  }

  /** The first phase is edited: it is never built, and the run starts after it all the same. */
  lemma {:induction false} EditedPhaseIsSkipped()
    ensures var edited := [Draft(Some({}), None, ["c"]), Draft(Some({}), None, ["b"])];
      Inv(CONFIG, REPLANNED) && EditStep(REPLANNED, edited).Some?
      && var k := EditStep(REPLANNED, edited).value; k.index == 1 && !SettledUpTo(k, 1)
  {
    var edited := [Draft(Some({}), None, ["c"]), Draft(Some({}), None, ["b"])];
    ReplannedKept();
    var qs := Compose(REPLANNED, 1, edited);
    assert DraftOf(REPLANNED.phases[0]) != edited[0];
    assert qs == [Phase(2, 2, Some({}), None, ["c"]), Phase(3, 3, Some({}), None, ["b"])];
    assert forall f :: Lists(qs, 1, f) ==> f == "c";
    assert forall f :: Lists(qs, 2, f) ==> f == "b";
    assert Sound(qs, 0);
    EditKeepsSettled(CONFIG, REPLANNED, edited);
  }

  // -- phases that take turns -----------------------------------------------------------

  /** Two phases that say they need nothing, approved and about to be built. */
  const TWO_APART := NEW_JOB.(
    state := Developing, phases := [Backend(0, Some({}), "a"), Backend(1, Some({}), "b")],
    nextObj := 2, nextUid := 2, plan := 1, approved := 1, want := map[0 := {}, 1 := {}])

  lemma {:induction false} TwoAlonePlan(j: Job)
    requires j.phases == [Backend(0, Some({}), "a"), Backend(1, Some({}), "b")]
    requires j.want == map[0 := {}, 1 := {}] && j.nextObj == 2 && j.nextUid == 2
    ensures PlanKept(j) && AsNumbered(j)
  {
    assert NamedBy(j.phases, 1) == {} && NamedBy(j.phases, 2) == {};
    assert At(j.phases, 1).uid == 0 && At(j.phases, 2).uid == 1;
  }

  lemma {:induction false} TwoApartKept()
    ensures Inv(CONFIG, TWO_APART) && FreshPlan(TWO_APART)
  {
    TwoAlonePlan(TWO_APART);
    NothingBuilt(TWO_APART);
  }

  lemma {:induction false} NothingWanted(u: nat, v: nat)
    requires u != v
    ensures !WantsDeep(TWO_APART.want, u, v)
  {
    forall c | WantLinks(TWO_APART.want, c, u, v) ensures false {
      ChainShortens(TWO_APART.want, c);
    }
  }

  /** Left alone, they are tried in turn for ever. */
  lemma {:induction false} TwoApartGoOnForever()
    ensures FreshPlan(TWO_APART) && CanLoopForever(CONFIG, TWO_APART)
  {
    TwoApartKept();
    var ps := TWO_APART.phases;
    assert KindOf(At(ps, 1)) in OpenKinds(TWO_APART) && KindOf(At(ps, 2)) in OpenKinds(TWO_APART);
    NothingWanted(0, 1);
    NothingWanted(1, 0);
    LoopsWhere(CONFIG, TWO_APART);
  }

  // -- a phase that swings ----------------------------------------------------------------

  /** The first phase says nothing of its needs; the second needs nothing, and is for iOS. */
  const IOS_SECOND := NEW_JOB.(
    state := Developing, phases := [Backend(0, None, "a"), Phase(1, 1, Some({}), Some(Ios), ["b"])],
    nextObj := 2, nextUid := 2, plan := 1, approved := 1, want := map[0 := {}, 1 := {}])

  lemma {:induction false} IosSecondPlan(j: Job)
    requires j.phases == [Backend(0, None, "a"), Phase(1, 1, Some({}), Some(Ios), ["b"])]
    requires j.want == map[0 := {}, 1 := {}] && j.nextObj == 2 && j.nextUid == 2 && j.state == Developing && j.index == 0
    ensures PlanKept(j) && AsNumbered(j) && Tied(OpenKinds(j), j.want)
  {
    assert NamedBy(j.phases, 2) == {} && Before(j.phases, 1) == {};
    assert At(j.phases, 1).uid == 0 && At(j.phases, 2).uid == 1;
  }

  lemma {:induction false} IosSecondKept()
    ensures Inv(CONFIG, IOS_SECOND) && FreshPlan(IOS_SECOND) && Tied(OpenKinds(IOS_SECOND), IOS_SECOND.want)
  {
    IosSecondPlan(IOS_SECOND);
    NothingBuilt(IOS_SECOND);
  }

  /** With no Mac there, the first is tried for ever, though all phases that name their needs
      are tied and neither of the two wants the other. */
  lemma {:induction false} IosSecondGoesOnForever()
    ensures FreshPlan(IOS_SECOND) && CanLoopForever(CONFIG, IOS_SECOND)
    ensures Tied(OpenKinds(IOS_SECOND), IOS_SECOND.want) && PlatformsAlone(OpenKinds(IOS_SECOND), IOS_SECOND.want)
  {
    IosSecondKept();
    var ps, want := IOS_SECOND.phases, IOS_SECOND.want;
    var x, y := KindOf(At(ps, 1)), KindOf(At(ps, 2));
    assert x in OpenKinds(IOS_SECOND) && y in OpenKinds(IOS_SECOND);
    assert want == TWO_APART.want;
    NothingWanted(0, 1);
    assert Parted(x, y);
    LoopsWhere(CONFIG, IOS_SECOND);
  }

  // -- and one that swings with a phase that wants it -------------------------------------

  /** An iOS phase that needs nothing, and one for the backend that says nothing of what it needs. */
  const IOS_FIRST := [Phase(0, 0, Some({}), Some(Ios), ["a"]), Backend(1, None, "b")]

  const IOS_FIRST_JOB := NEW_JOB.(
    state := Developing, phases := IOS_FIRST, nextObj := 2, nextUid := 2, plan := 1, approved := 1,
    want := map[0 := {}, 1 := {0}])

  lemma {:induction false} IosFirstInOrder()
    ensures var want: Wants := map[0 := {}, 1 := {0}];
      Backward(IOS_FIRST) && Distinct(IOS_FIRST, 2) && Faithful(IOS_FIRST, want) && InOrder(IOS_FIRST, want)
  {
    var ps := IOS_FIRST;
    assert NamedBy(ps, 1) == {};
    assert At(ps, 1).uid == 0 && At(ps, 2).uid == 1 && At(ps, 1).uid in Before(ps, 2);
  }

  lemma {:induction false} IosFirstFresh()
    ensures Inv(CONFIG, IOS_FIRST_JOB) && FreshPlan(IOS_FIRST_JOB) && Tied(OpenKinds(IOS_FIRST_JOB), IOS_FIRST_JOB.want)
  {
    var ps := IOS_FIRST;
    IosFirstInOrder();
    assert At(ps, 1).uid == 0 && At(ps, 2).uid == 1;
    assert Before(ps, 2) == {0};
  }

  lemma {:induction false} IosFirstSound()
    ensures Sound(IOS_FIRST, 0)
  {
    var ps := IOS_FIRST;
    assert forall f :: Lists(ps, 1, f) ==> f == "a";
    assert forall f :: Lists(ps, 2, f) ==> f == "b";
  }

  /** The plan's check accepts it, its one phase that names its needs is tied to no other, and
      with no Mac there the backend phase, which wants the iOS phase, is tried for ever. */
  lemma {:induction false} IosFirstGoesOnForever()
    ensures Sound(IOS_FIRST, 0) && Inv(CONFIG, IOS_FIRST_JOB) && FreshPlan(IOS_FIRST_JOB)
    ensures Tied(OpenKinds(IOS_FIRST_JOB), IOS_FIRST_JOB.want) && !PlatformsAlone(OpenKinds(IOS_FIRST_JOB), IOS_FIRST_JOB.want)
    ensures CanLoopForever(CONFIG, IOS_FIRST_JOB)
  {
    IosFirstSound();
    IosFirstFresh();
    var want := IOS_FIRST_JOB.want;
    var n, p := KindOf(At(IOS_FIRST, 1)), KindOf(At(IOS_FIRST, 2));
    assert n in OpenKinds(IOS_FIRST_JOB) && p in OpenKinds(IOS_FIRST_JOB);
    assert Wanted(want, n.uid, p.uid) && Parted(p, n);
    forall c | WantLinks(want, c, 1, 0) ensures false {
      ChainShortens(want, c);
    }
    LoopsWhere(CONFIG, IOS_FIRST_JOB);
  }

  // -- and a tie that comes loose -----------------------------------------------------------

  function OfMac(uid: nat, file: string): Phase
  {
    Phase(uid, uid, None, Some(Ios), [file])
  }

  /** Two iOS phases that say nothing of their needs; of the three others each names the one
      before, or wants it through the second iOS phase. */
  const FIVE := [OfMac(0, "a"), Backend(1, Some({}), "b"), OfMac(2, "c"), Backend(3, Some({3}), "d"), Backend(4, Some({4}), "e")]

  const FIVE_WANT: Wants := map[0 := {}, 1 := {}, 2 := {0, 1}, 3 := {2}, 4 := {3}]

  const LOOSENED := NEW_JOB.(
    state := Developing, phases := FIVE, nextObj := 5, nextUid := 5, plan := 1, approved := 1, want := FIVE_WANT)

  lemma {:induction false} FiveAre(n: nat)
    requires 1 <= n <= 5
    ensures At(FIVE, n).uid == n - 1 && At(FIVE, n).obj == n - 1
    ensures forall d: nat :: States(FIVE, n, d) ==> d == n - 1
    ensures n - 1 in FIVE_WANT && FIVE_WANT[n - 1] == WantsOf(FIVE, n) <= Before(FIVE, n)
  {
    assert FIVE[0].uid == 0 && FIVE[1].uid == 1 && FIVE[2].uid == 2 && FIVE[3].uid == 3;
    if n == 1 {
      assert Before(FIVE, 1) == {};
    } else if n == 2 {
      assert NamedBy(FIVE, 2) == {};
    } else if n == 3 {
      assert At(FIVE, 1).uid == 0 && At(FIVE, 2).uid == 1;
      assert Before(FIVE, 3) == {0, 1};
    } else if n == 4 {
      assert At(FIVE, 3).uid in NamedBy(FIVE, 4);
    } else {
      assert At(FIVE, 4).uid in NamedBy(FIVE, 5);
    }
  }

  lemma {:induction false} FiveFiles(n: nat, f: string)
    requires Lists(FIVE, n, f)
    ensures f == ["a", "b", "c", "d", "e"][n - 1]
  {
  }

  lemma {:induction false} FiveSound()
    ensures Sound(FIVE, 0)
  {
    forall n: nat, d: nat | 0 < n <= |FIVE| && States(FIVE, n, d) ensures 1 <= d < n {
      FiveAre(n);
    }
    forall a: nat, b: nat, f | a < b && Lists(FIVE, a, f) && Lists(FIVE, b, f) ensures false {
      FiveFiles(a, f);
      FiveFiles(b, f);
    }
  }

  lemma {:induction false} FivePlan(j: Job)
    requires j.phases == FIVE && j.want == FIVE_WANT && j.index == 0 && j.nextObj == 5 && j.nextUid == 5
    ensures PlanKept(j) && AsNumbered(j)
  {
    FiveOrdered();
    forall n: nat | 1 <= n <= 5 ensures At(FIVE, n).uid == n - 1 && At(FIVE, n).obj == n - 1 && FIVE_WANT[n - 1] == WantsOf(FIVE, n) {
      FiveAre(n);
    }
  }

  lemma {:induction false} FiveOrdered()
    ensures Backward(FIVE) && InOrder(FIVE, FIVE_WANT)
  {
    forall n: nat | 1 <= n <= 5
      ensures At(FIVE, n).uid == n - 1 && FIVE_WANT[n - 1] <= Before(FIVE, n) && forall d: nat :: States(FIVE, n, d) ==> d == n - 1
    {
      FiveAre(n);
    }
    assert At(FIVE, 1).needs.None?;
  }

  lemma {:induction false} LoosenedFresh()
    ensures PlanKept(LOOSENED) && FreshPlan(LOOSENED)
  {
    FivePlan(LOOSENED);
  }

  lemma {:induction false} LoosenedTied()
    ensures Tied(OpenKinds(LOOSENED), FIVE_WANT) && !CanSwing(OpenKinds(LOOSENED), FIVE_WANT)
  {
    WantsItself(FIVE_WANT, 1);
    WantsOneMore(FIVE_WANT, 1, 1, 2);
    WantsOneMore(FIVE_WANT, 1, 2, 3);
    WantsOneMore(FIVE_WANT, 1, 3, 4);
    WantsItself(FIVE_WANT, 3);
    WantsOneMore(FIVE_WANT, 3, 3, 4);
  }

  lemma {:induction false} FiveMoves()
    ensures Unbuildable(FIVE, 0, {}) == {1, 3} && Moves(5, 0, {1, 3}) == [2, 4, 5, 1, 3]
  {
    var later := {1, 3};
    assert UpTo(5) == {1, 2, 3, 4, 5};
    assert Pick(4, 5, later, false) == [4, 5] && Pick(2, 5, later, false) == [2, 4, 5];
    assert Pick(4, 5, later, true) == [] && Pick(2, 5, later, true) == [3];
  }

  lemma {:induction false} FivePlaces(m: seq<nat>)
    requires m == [2, 4, 5, 1, 3]
    ensures 3 in m && 4 in m && Place(m, 3) == 5 && Place(m, 4) == 2
  {
    assert m[1..] == [4, 5, 1, 3] && m[1..][1..] == [5, 1, 3] && m[1..][1..][1..] == [1, 3];
  }

  lemma {:induction false} NoNeedMoved(p: Phase, m: seq<nat>, obj: nat)
    requires p.needs == Some({})
    ensures Renumbered(p, m, obj) == p.(obj := obj)
  {
    assert Renumbered(p, m, obj).needs.value == {};
  }

  lemma {:induction false} OneNeedMoved(p: Phase, m: seq<nat>, obj: nat, d: nat)
    requires p.needs == Some({d}) && d in m
    ensures Renumbered(p, m, obj) == p.(obj := obj, needs := Some({Place(m, d)}))
  {
    var one := set e | e in p.needs.value && e in m :: Place(m, e);
    assert one == {Place(m, d)};
  }

  /** What names nothing comes first, and of what names something one names a later phase then. */
  ghost predicate Loosened(qs: seq<Phase>)
  {
    && |qs| == 5 && At(qs, 1).needs == Some({}) && At(qs, 2).needs == Some({5}) && At(qs, 3).needs == Some({2})
    && At(qs, 1).platform.None?
  }

  lemma {:induction false} FiveMoved(m: seq<nat>)
    requires Permutes(m, 5) && m == [2, 4, 5, 1, 3]
    ensures Loosened(Reordered(FIVE, m, 5))
  {
    FivePlaces(m);
    var qs := Reordered(FIVE, m, 5);
    assert At(qs, 1) == Renumbered(At(FIVE, 2), m, 5) && At(qs, 2) == Renumbered(At(FIVE, 4), m, 6) && At(qs, 3) == Renumbered(At(FIVE, 5), m, 7);
    NoNeedMoved(At(FIVE, 2), m, 5);
    OneNeedMoved(At(FIVE, 4), m, 6, 3);
    OneNeedMoved(At(FIVE, 5), m, 7, 4);
  }

  lemma {:induction false} LoosenedLast()
    ensures UnbuildableLast(LOOSENED, {}) == MovePhases(LOOSENED, {1, 3}) && Loosened(UnbuildableLast(LOOSENED, {}).phases)
    ensures !BuildableHere(InTurn(LOOSENED), {})
  {
    FiveMoves();
    FiveMoved(Moves(5, 0, {1, 3})) by {
      MovesPermute(5, 0, {1, 3});
    }
    assert BuildableHere(At(FIVE, 2), {}) && !BuildableHere(At(FIVE, 1), {});
  }

  lemma {:induction false} LoosenedTurns(k: Job)
    requires Ground(k) && k.state == BuildGate && k.work.attempts == 0 && k.index == 0 && k.parked == map[] && Loosened(k.phases)
    ensures TakeTurns(k, 1, 3)
  {
    NamerWaits(k.phases, 1, 2);
    NamerWaits(k.phases, 1, 3);
    NeedingHas(k.phases, 1);
  }

  /** Its phases that name their needs are tied and none of them can swing, and still it can
      go on for ever: of a plan whose platforms do not stand alone, the condition is not all. */
  lemma {:induction false} LoosenedGoesOnForever()
    ensures Sound(FIVE, 0) && PlanKept(LOOSENED) && FreshPlan(LOOSENED)
    ensures Tied(OpenKinds(LOOSENED), LOOSENED.want) && !CanSwing(OpenKinds(LOOSENED), LOOSENED.want)
    ensures CanLoopForever(CONFIG, LOOSENED)
  {
    FiveSound();
    LoosenedFresh();
    LoosenedTied();
    LoosenedLast();
    LoosenedLoops(LOOSENED);
  }

  lemma {:induction false} LoosenedLoops(j: Job)
    requires Ground(j) && j.state == Developing && j.work.attempts == 0 && j.index == 0 && j.parked == map[] && 0 < |j.phases|
    requires !BuildableHere(InTurn(j), {}) && Loosened(UnbuildableLast(j, {}).phases)
    ensures CanLoopForever(CONFIG, j)
  {
    var k, e := SetLast(j, {}), PhaseTurn({}, false, true, Written(""));
    LastGround(j, {});
    LoosenedTurns(k);
    TurnsLoop(CONFIG, k, 1, 3);
    LastWrites(CONFIG, j, UnbuildableLast(j, {}), {});
    LoopsBefore(CONFIG, j, e, k);
  }

  // -- moving what cannot be built here -------------------------------------------------

  /** The second phase wants every earlier one, and is moved ahead of the first. */
  lemma {:induction false} MovedAheadOfItsNeed()
    ensures var want: Wants := map[0 := {}, 1 := {0}];
      && Backward(IOS_FIRST) && Distinct(IOS_FIRST, 2) && Faithful(IOS_FIRST, want) && InOrder(IOS_FIRST, want)
      && Permutes(Moves(2, 0, Unbuildable(IOS_FIRST, 0, {})), 2)
      && !Kept(IOS_FIRST, Reordered(IOS_FIRST, Moves(2, 0, Unbuildable(IOS_FIRST, 0, {})), 2), 0, 2, want)
  {
    var ps, want: Wants := IOS_FIRST, map[0 := {}, 1 := {0}];
    IosFirstInOrder();
    UnbuildableLastKeepsOrder(ps, 0, {}, 2, want);
    assert !BuildableHere(At(ps, 1), {}) && BuildableHere(At(ps, 2), {});
  }

  // -- an answer taken for another phase ------------------------------------------------

  /** One phase is built; an iOS phase, whose answer was started while a Mac was there, and
      one for the backend are left. */
  const MAC_GONE := NEW_JOB.(
    state := Developing, index := 1, nextObj := 3, nextUid := 3, plan := 1, approved := 1,
    phases := [Backend(0, Some({}), "a"), Phase(1, 1, Some({}), Some(Ios), ["b"]), Backend(2, Some({}), "c")],
    want := map[0 := {}, 1 := {}, 2 := {}], log := [Built(0)])

  const STARTED: WriteAhead.Running := map[2 := WriteAhead.Future(0, 1, true)]

  lemma {:induction false} MacGonePlan(j: Job)
    requires j.phases == [Backend(0, Some({}), "a"), Phase(1, 1, Some({}), Some(Ios), ["b"]), Backend(2, Some({}), "c")]
    requires j.want == map[0 := {}, 1 := {}, 2 := {}] && j.nextObj == 3 && j.nextUid == 3
    ensures PlanKept(j)
  {
    assert NamedBy(j.phases, 1) == {} && NamedBy(j.phases, 2) == {} && NamedBy(j.phases, 3) == {};
  }

  lemma {:induction false} MacGoneKept()
    ensures PlanKept(MAC_GONE) && WouldMove(MAC_GONE, {})
  {
    MacGonePlan(MAC_GONE);
    assert !BuildableHere(At(MAC_GONE.phases, 2), {}) && BuildableHere(At(MAC_GONE.phases, 3), {});
  }

  lemma {:induction false} MacGoneMoves()
    ensures !StandsStill(3, 1, Unbuildable(MAC_GONE.phases, 1, {}), 2)
  {
    var ps := MAC_GONE.phases;
    assert !BuildableHere(At(ps, 2), {}) && BuildableHere(At(ps, 3), {});
    assert 2 in UpTo(3) && 3 in UpTo(3);
    assert 3 !in Unbuildable(ps, 1, {});
  }

  /** With the Mac gone, the answer for the iOS phase stands under the backend phase's number. */
  lemma {:induction false} AnswerForAnother()
    ensures WriteAhead.Filed(MAC_GONE.phases, STARTED) && !WriteAhead.Filed(UnbuildableLast(MAC_GONE, {}).phases, STARTED)
  {
    MacGoneKept();
    MacGoneMoves();
    assert At(MAC_GONE.phases, 2).uid == 1;
    AnswersStayFiled(MAC_GONE, {}, STARTED);
    assert 2 in STARTED.Keys;
  }

  // -- what a new plan finds of the old one -----------------------------------------------

  function Alone(uid: nat, obj: nat, file: string): Phase
  {
    Phase(uid, obj, Some({}), None, [file])
  }

  function AloneDraft(file: string): Draft
  {
    Draft(Some({}), None, [file])
  }

  /** Two phases that need nothing; the one that stood first was set aside. */
  const ONE_ASIDE := NEW_JOB.(
    state := Developing, phases := [Alone(1, 2, "b"), Alone(0, 3, "a")], nextObj := 4, nextUid := 2, plan := 1, approved := 1,
    parked := map[2 := Held("", "half of a", NO_WORK, 0)], want := map[0 := {}, 1 := {}])

  lemma {:induction false} OneAsideKept()
    ensures Inv(CONFIG, ONE_ASIDE) && OwnRecords(ONE_ASIDE)
  {
    var ps := ONE_ASIDE.phases;
    assert NamedBy(ps, 1) == {} && NamedBy(ps, 2) == {};
    assert At(ps, 1).uid == 1 && At(ps, 2).uid == 0;
  }

  lemma {:induction false} TwoAlone(nextObj: nat, nextUid: nat)
    ensures var qs := Drafted(ONE_ASIDE.phases, nextObj, nextUid, 0, [AloneDraft("c"), AloneDraft("d")]);
      qs == [Alone(nextUid, nextObj, "c"), Alone(nextUid + 1, nextObj + 1, "d")] && Sound(qs, 0)
  {
    var qs := Drafted(ONE_ASIDE.phases, nextObj, nextUid, 0, [AloneDraft("c"), AloneDraft("d")]);
    assert qs == [Alone(nextUid, nextObj, "c"), Alone(nextUid + 1, nextObj + 1, "d")];
    assert forall f :: Lists(qs, 1, f) ==> f == "c";
    assert forall f :: Lists(qs, 2, f) ==> f == "d";
  }

  const MADE_AGAIN := PlanWritten([AloneDraft("c"), AloneDraft("d")])

  lemma {:induction false} NewPlanIs(j: Job) returns (made: Job)
    requires j.state == Architecture && KeptOf(j) == 0 && j.phases == ONE_ASIDE.phases && j.rejects <= CONFIG.maxRejects
    ensures Next(CONFIG, j, MADE_AGAIN) == Some(made) && PlansAnew(CONFIG, j, MADE_AGAIN) && made.parked == j.parked
    ensures made.phases == [Alone(j.nextUid, j.nextObj, "c"), Alone(j.nextUid + 1, j.nextObj + 1, "d")]
  {
    var drafts := [AloneDraft("c"), AloneDraft("d")];
    assert Whole(j.phases, 0, drafts) == drafts;
    TwoAlone(j.nextObj, j.nextUid);
    made := Next(CONFIG, j, MADE_AGAIN).value;
  }

  /** The plan is sent back and made again: the new second phase has the record of a phase
      of the old plan, which will be put back as if it were its own. */
  lemma {:induction false} RecordOfAnOldPhase() returns (back: Job, made: Job)
    ensures Next(CONFIG, ONE_ASIDE, Redirected) == Some(back) && Next(CONFIG, back, MADE_AGAIN) == Some(made)
    ensures Inv(CONFIG, ONE_ASIDE) && OwnRecords(ONE_ASIDE) && MisplacesRecord(CONFIG, back, MADE_AGAIN)
    ensures 2 in made.parked && made.parked[2].uid == 0 && At(made.phases, 2).uid == 3
  {
    OneAsideKept();
    back := Next(CONFIG, ONE_ASIDE, Redirected).value;
    made := NewPlanIs(back);
    assert 2 in back.parked;
  }

  /** The same two phases, nothing set aside, and the answer of the second on its way when the
      first failed. */
  const ONE_WRITING := ONE_ASIDE.(state := Failed, failedFrom := Developing, parked := map[])

  const WRITING: WriteAhead.Running := map[2 := WriteAhead.Future(0, 0, true)]

  /** It is started over and planned again, nothing is forgotten, and the new second phase
      will take the answer of the old one. */
  lemma {:induction false} AnswerOfAnOldPhase() returns (over: Job, planning: Job, made: Job)
    ensures Next(CONFIG, ONE_WRITING, StartedOver) == Some(over) && Next(CONFIG, over, BacklogWritten(true)) == Some(planning)
    ensures Next(CONFIG, planning, MADE_AGAIN) == Some(made)
    ensures !Drops(CONFIG, ONE_WRITING, StartedOver) && !Drops(CONFIG, over, BacklogWritten(true)) && !Drops(CONFIG, planning, MADE_AGAIN)
    ensures WriteAhead.Filed(ONE_WRITING.phases, WRITING) && At(made.phases, 2).uid == 3 && WRITING[2].uid == 0
  {
    over := Next(CONFIG, ONE_WRITING, StartedOver).value;
    planning := Next(CONFIG, over, BacklogWritten(true)).value;
    made := NewPlanIs(planning);
  }
}
