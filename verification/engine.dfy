/**
 The engine's own methods (slipwright/engine.py), which change a development's data in
 place. Each keeps the invariant and makes of the data what its step in Job says, so all
 that is proved of those steps, and of whole runs of them, holds of these methods; the run
 loop itself is at the end.
 */
module Engine {
  import opened Wrappers
  import opened Plan
  import opened Reordering
  import opened Job
  import opened Safety
  import opened Parking
  import opened Termination
  import opened Outcomes
  import opened RunLoop

  // -- what needs the phase in turn -----------------------------------------------------

  /** The forward pass of `_park`: one look at each later phase. While every edge points back
      it finds everything that needs `k`, directly or through others. */
  method NeedsIt(ps: seq<Phase>, k: nat) returns (needsIt: set<nat>)
    requires 1 <= k <= |ps|
    ensures needsIt == Needing(ps, k)
    ensures Backward(ps) ==> needsIt == Dependents(ps, k)
  {
    needsIt := {k};
    for n := k + 1 to |ps| + 1
      invariant needsIt == Pass(ps, k, n - 1)
    {
      var deps := At(ps, n).needs;
      if deps.None? || needsIt * deps.value != {} {
        needsIt := needsIt + {n};
      }
    }
    if Backward(ps) {
      NeedingIs(ps, k);
    }
  }

  /** The numbers from `lo` to `hi` that are in `later`, or those that are not, one by one. */
  method Picked(lo: nat, hi: nat, later: set<nat>, want: bool) returns (s: seq<nat>)
    requires lo <= hi + 1
    ensures s == Pick(lo, hi, later, want)
  {
    s := [];
    var n := hi + 1;
    while lo < n
      invariant lo <= n <= hi + 1
      invariant s == Pick(n, hi, later, want)
    {
      n := n - 1;
      s := (if (n in later) == want then [n] else []) + s;
    }
  }

  // -- the numbers follow the phases ----------------------------------------------------

  /** The phases of a plan, in the order `m`. */
  ghost predicate Rearranged(ps: seq<Phase>, moved: seq<Phase>, m: seq<nat>)
  {
    Permutes(m, |ps|) && |moved| == |ps| && forall i: nat :: i < |m| ==> m[i] in m && moved[i] == At(ps, m[i])
  }

  ghost predicate DistinctRecords(moved: seq<Phase>)
  {
    forall a: nat, b: nat :: a < b < |moved| ==> moved[a].obj != moved[b].obj
  }

  ghost predicate Numbered(moved: seq<Phase>, number: map<nat, nat>, k: nat)
  {
    && (forall i: nat :: i < k && i < |moved| ==> moved[i].obj in number && number[moved[i].obj] == i + 1)
    && (forall o :: o in number ==> exists i: nat :: i < k && i < |moved| && moved[i].obj == o)
  }

  /** `number`: where each record stands now. */
  method Numbers(moved: seq<Phase>) returns (number: map<nat, nat>)
    requires DistinctRecords(moved)
    ensures Numbered(moved, number, |moved|)
  {
    number := map[];
    for i := 0 to |moved|
      invariant Numbered(moved, number, i)
    {
      assert moved[i].obj !in number;
      number := number[moved[i].obj := i + 1];
    }
  }

  lemma {:induction false} RearrangedDistinct(ps: seq<Phase>, nextObj: nat, moved: seq<Phase>, m: seq<nat>)
    requires Distinct(ps, nextObj) && Rearranged(ps, moved, m)
    ensures DistinctRecords(moved)
  {
    forall a: nat, b: nat | a < b < |moved| ensures moved[a].obj != moved[b].obj {
      var x, y := m[a], m[b];
      assert x != y && moved[a] == At(ps, x) && moved[b] == At(ps, y);
    }
  }

  lemma {:induction false} NumberIsPlace(ps: seq<Phase>, moved: seq<Phase>, m: seq<nat>, number: map<nat, nat>, d: nat)
    requires Rearranged(ps, moved, m) && Numbered(moved, number, |moved|) && 1 <= d <= |ps|
    ensures d in m && At(ps, d).obj in number && number[At(ps, d).obj] == Place(m, d)
  {
    assert d in m;
    assert moved[Place(m, d) - 1] == At(ps, d);
  }

  /** Phase `n` in the moved plan: one that names its needs is built anew, with their new numbers. */
  method Renumber(ps: seq<Phase>, n: nat, number: map<nat, nat>, obj: nat, ghost moved: seq<Phase>, ghost m: seq<nat>)
      returns (q: Phase)
    requires Rearranged(ps, moved, m) && Numbered(moved, number, |moved|) && Ranged(ps) && 1 <= n <= |ps|
    ensures q == Renumbered(At(ps, n), m, obj)
  {
    var p := At(ps, n);
    if p.needs.None? {
      return p;
    }
    forall d | d in p.needs.value ensures 1 <= d <= |ps| && d in m && At(ps, d).obj in number && number[At(ps, d).obj] == Place(m, d) {
      assert States(ps, n, d);
      NumberIsPlace(ps, moved, m, number, d);
    }
    var needs := set d | d in p.needs.value && 1 <= d <= |ps| && At(ps, d).obj in number :: number[At(ps, d).obj];
    ghost var places := Renumbered(p, m, obj).needs.value;
    assert forall x :: x in needs <==> x in places;
    assert needs == places;
    return p.(obj := obj, needs := Some(needs));
  }

  /** The first `i` phases of the moved plan, renumbered. */
  ghost predicate RenumberedUpTo(ps: seq<Phase>, m: seq<nat>, nextObj: nat, qs: seq<Phase>, i: nat)
    requires Permutes(m, |ps|)
  {
    |qs| == i <= |ps| && forall k: nat :: k < i ==> m[k] in m && qs[k] == Renumbered(At(ps, m[k]), m, nextObj + k)
  }

  lemma {:induction false} AllRenumbered(ps: seq<Phase>, m: seq<nat>, nextObj: nat, qs: seq<Phase>)
    requires Permutes(m, |ps|) && RenumberedUpTo(ps, m, nextObj, qs, |ps|)
    ensures qs == Reordered(ps, m, nextObj)
  {
  }

  /** `_reorder`: the plan's phases in a new order, their needs renumbered by where each record stood and stands. */
  method Reorder(ps: seq<Phase>, nextObj: nat, moved: seq<Phase>, m: seq<nat>) returns (qs: seq<Phase>)
    requires Ranged(ps) && Distinct(ps, nextObj) && Rearranged(ps, moved, m)
    ensures qs == Reordered(ps, m, nextObj)
  {
    RearrangedDistinct(ps, nextObj, moved, m);
    var number := Numbers(moved);
    qs := [];
    for i := 0 to |moved|
      invariant RenumberedUpTo(ps, m, nextObj, qs, i)
    {
      assert m[i] in m;
      var q := Renumber(ps, m[i], number, nextObj + i, moved, m);
      qs := qs + [q];
    }
    AllRenumbered(ps, m, nextObj, qs);
  }

  /** The phases numbered `m`, in that order. */
  method PhasesOf(ps: seq<Phase>, m: seq<nat>) returns (moved: seq<Phase>)
    requires Permutes(m, |ps|)
    ensures Rearranged(ps, moved, m)
  {
    moved := [];
    for i := 0 to |m|
      invariant |moved| == i && forall k: nat :: k < i ==> m[k] in m && moved[k] == At(ps, m[k])
    {
      assert m[i] in m;
      moved := moved + [At(ps, m[i])];
    }
  }

  // -- records set aside ----------------------------------------------------------------

  /** The records of the phases from `lo` on, taken out by what identifies their phases. */
  method TakeRecords(filing: Filing, ps: seq<Phase>, parked: Parked, lo: nat) returns (moving: Parked)
    requires 1 <= lo <= |ps| + 1
    ensures moving == Moving(filing, ps, parked, lo)
  {
    moving := map[];
    var n := |ps| + 1;
    while lo < n
      invariant lo <= n <= |ps| + 1
      invariant moving == Moving(filing, ps, parked, n)
    {
      n := n - 1;
      if n in parked {
        moving := moving[KeyOf(filing, At(ps, n)) := parked[n]];
      }
    }
  }

  /** The records taken out find their phases again. */
  method FileRecords(filing: Filing, ps: seq<Phase>, qs: seq<Phase>, before: Parked, lo: nat) returns (parked: Parked)
    requires 1 <= lo <= |ps| + 1
    ensures parked == Refiled(filing, ps, qs, before, lo)
  {
    var moving := TakeRecords(filing, ps, before, lo);
    ghost var rest := before - (UpTo(|ps|) - UpTo(lo - 1));
    parked := map n | n in before && !(lo <= n <= |ps|) :: before[n];
    assert parked == rest;
    for i := 0 to |qs|
      invariant parked == rest + Landed(filing, qs, moving, i)
    {
      var key := KeyOf(filing, At(qs, i + 1));
      if key in moving {
        parked := parked[i + 1 := moving[key]];
      }
    }
  }

  lemma {:induction false} PickedSome(lo: nat, hi: nat, later: set<nat>)
    ensures Pick(lo, hi, later, false) != [] <==> exists n: nat :: lo <= n <= hi && n !in later
  {
    PickIs(lo, hi, later, false);
    var s := Pick(lo, hi, later, false);
    if s != [] {
      assert s[0] in s;
    }
  }

  lemma {:induction false} FreeIsPicked(j: Job)
    requires j.index < |j.phases|
    ensures SomeFree(j) <==> Pick(j.index + 1, |j.phases|, Needing(j.phases, j.index + 1), false) != []
  {
    var later := Needing(j.phases, j.index + 1);
    PickedSome(j.index + 1, |j.phases|, later);
    if n: nat :| j.index < n <= |j.phases| && n !in later {
      assert n in Free(j);
    }
  }

  /** The phase in turn stands first of those that need it, behind the free ones. */
  lemma {:induction false} ParkPlace(j: Job)
    requires j.index < |j.phases|
    ensures AfterPark(j, j.index + 1) == j.index + 1 + |Pick(j.index + 1, |j.phases|, Needing(j.phases, j.index + 1), false)|
  {
    var later := Needing(j.phases, j.index + 1);
    NeedingHas(j.phases, j.index + 1);
    PlaceCounts(|j.phases|, j.index, later, j.index + 1);
    PickAt(j.index + 1, |j.phases|, later, false, j.index + 1);
  }

  /** `_reorder`, for the move that puts `later` behind the other unbuilt phases. */
  method MoveBehind(ps: seq<Phase>, index: nat, nextObj: nat, free: seq<nat>, later: set<nat>) returns (qs: seq<Phase>)
    requires Ranged(ps) && Distinct(ps, nextObj) && index <= |ps| && free == Pick(index + 1, |ps|, later, false)
    ensures Permutes(Moves(|ps|, index, later), |ps|) && qs == Reordered(ps, Moves(|ps|, index, later), nextObj)
  {
    var first := Picked(1, index, {}, false);
    var behind := Picked(index + 1, |ps|, later, true);
    MovesPermute(|ps|, index, later);
    var moved := PhasesOf(ps, first + free + behind);
    qs := Reorder(ps, nextObj, moved, first + free + behind);
  }

  lemma {:induction false} MovedAndFiled(filing: Filing, j: Job, free: seq<nat>, qs: seq<Phase>, refiled: Parked)
    requires j.index < |j.phases| && free == Pick(j.index + 1, |j.phases|, Needing(j.phases, j.index + 1), false)
    requires Permutes(MoveOf(j, Needing(j.phases, j.index + 1)), |j.phases|)
    requires qs == Reordered(j.phases, MoveOf(j, Needing(j.phases, j.index + 1)), j.nextObj)
    requires refiled == Refiled(filing, j.phases, qs, j.parked, j.index + 1)
    ensures qs == PhasesAfter(j) && refiled == AllRefiled(filing, j) && AfterPark(j, j.index + 1) == j.index + |free| + 1
  {
    ParkPlace(j);
  }

  /** What `_park` makes of the plan and the records, when something is free of the phase in turn. */
  method ParkedPlan(filing: Filing, j: Job, held: Held) returns (free: seq<nat>, qs: seq<Phase>, filed: Parked)
    requires Ranged(j.phases) && Distinct(j.phases, j.nextObj) && j.index < |j.phases|
    ensures free != [] <==> SomeFree(j)
    ensures free != [] ==> qs == PhasesAfter(j) && filed == AllRefiled(filing, j)[AfterPark(j, j.index + 1) := held]
  {
    var needsIt := NeedsIt(j.phases, j.index + 1);
    free := Picked(j.index + 1, |j.phases|, needsIt, false);
    FreeIsPicked(j);
    if free == [] {
      return free, j.phases, j.parked;
    }
    qs := MoveBehind(j.phases, j.index, j.nextObj, free, needsIt);
    filed := FileRecords(filing, j.phases, qs, j.parked, j.index + 1);
    MovedAndFiled(filing, j, free, qs, filed);
    filed := filed[j.index + |free| + 1 := held];
  }

  lemma {:induction false} ParkIsThat(filing: Filing, j: Job, why: string, qs: seq<Phase>, filed: Parked)
    requires j.index < |j.phases| && j.state == Developing && qs == PhasesAfter(j)
    requires filed == AllRefiled(filing, j)[AfterPark(j, j.index + 1) := Held(why, j.wip, j.work, InTurn(j).uid)]
    ensures ParkStep(filing, j, why)
      == j.(phases := qs, nextObj := j.nextObj + |j.phases|, parked := filed, work := NO_WORK, wip := "")
  {
    ParkOnlyFiles(filing, j, why);
    ParkIs(filing, j, why);
  }

  /** The phases behind the cursor in order, and as a move would leave them. */
  function Range(index: nat, count: nat): seq<nat>
  {
    Pick(index + 1, count, {}, false)
  }

  function Split(index: nat, count: nat, later: set<nat>): seq<nat>
  {
    Pick(index + 1, count, later, false) + Pick(index + 1, count, later, true)
  }

  lemma {:induction false} SplitIs(index: nat, count: nat, later: set<nat>)
    requires index <= count
    ensures |Split(index, count, later)| == |Range(index, count)| == count - index
    ensures |Moves(count, index, later)| == count
    ensures forall i: nat :: i < count - index ==> Range(index, count)[i] == index + 1 + i
    ensures forall i: nat :: index <= i < count ==> Moves(count, index, later)[i] == Split(index, count, later)[i - index]
  {
    PickFrom(index + 1, count);
    PickLengths(index + 1, count, later);
    PrefixStays(index);
    assert Moves(count, index, later) == Pick(1, index, {}, false) + Split(index, count, later);
  }

  /** Nothing overtakes anything exactly when the two lists are the same. */
  lemma {:induction false} SplitCompares(index: nat, count: nat, later: set<nat>)
    requires index <= count
    ensures Split(index, count, later) == Range(index, count) <==>
      forall n: nat :: index < n <= count ==> StandsStill(count, index, later, n)
  {
    SplitIs(index, count, later);
    MovesPermute(count, index, later);
    var m, split, range := Moves(count, index, later), Split(index, count, later), Range(index, count);
    forall n: nat | index < n <= count ensures StandsStill(count, index, later, n) <==> Keeps(m, n) {
      PlaceStill(count, index, later, n);
      if Keeps(m, n) {
        SameNumber(m, n);
      }
    }
    if split == range {
      forall n: nat | index < n <= count ensures Keeps(m, n) {
        assert m[n - 1] == split[n - 1 - index];
      }
    } else {
      var i: nat :| i < |split| && split[i] != range[i];
      assert m[index + i] == split[i];
      assert !Keeps(m, index + 1 + i);
    }
  }

  ghost predicate Keeps(m: seq<nat>, n: nat)
  {
    1 <= n <= |m| && m[n - 1] == n
  }

  /** Comparing the two lists tells whether the move would change anything. */
  lemma {:induction false} WouldMoveCompares(j: Job, here: set<Platform>)
    requires j.index < |j.phases|
    ensures WouldMove(j, here)
      <==> Split(j.index, |j.phases|, Unbuildable(j.phases, j.index, here)) != Range(j.index, |j.phases|)
  {
    var later, count := Unbuildable(j.phases, j.index, here), |j.phases|;
    SplitCompares(j.index, count, later);
    if WouldMove(j, here) {
      var a: nat, b: nat :| j.index < a < b <= |j.phases| && !BuildableHere(At(j.phases, a), here) && BuildableHere(At(j.phases, b), here);
      assert a in later && b !in later;
      assert !StandsStill(count, j.index, later, b);
    } else {
      forall n: nat | j.index < n <= count ensures StandsStill(count, j.index, later, n) {
        assert forall k: nat :: n < k <= count && n in later ==> k in later;
        assert forall k: nat :: j.index < k < n && n !in later ==> k !in later;
      }
    }
  }

  lemma {:induction false} EmptyReady(j: Job, here: set<Platform>)
    requires j.index < |j.phases|
    ensures Pick(j.index + 1, |j.phases|, Unbuildable(j.phases, j.index, here), false) == [] ==> !WouldMove(j, here)
  {
    PickIs(j.index + 1, |j.phases|, Unbuildable(j.phases, j.index, here), false);
    if WouldMove(j, here) {
      var a: nat, b: nat :| j.index < a < b <= |j.phases| && !BuildableHere(At(j.phases, a), here) && BuildableHere(At(j.phases, b), here);
      assert b in Pick(j.index + 1, |j.phases|, Unbuildable(j.phases, j.index, here), false);
    }
  }

  lemma {:induction false} SameNumber(m: seq<nat>, n: nat)
    requires Once(m) && 1 <= n <= |m| && m[n - 1] == n
    ensures n in m && Place(m, n) == n
  {
    assert m[Place(m, n) - 1] == n;
  }

  /** What `_put_unbuildable_last` makes of the plan, when that changes anything. */
  method LastPlan(j: Job, here: set<Platform>) returns (moves: bool, qs: seq<Phase>)
    requires Ranged(j.phases) && Distinct(j.phases, j.nextObj) && j.index < |j.phases|
    ensures moves <==> WouldMove(j, here)
    ensures Permutes(MoveOf(j, Unbuildable(j.phases, j.index, here)), |j.phases|)
    ensures moves ==> qs == Reordered(j.phases, MoveOf(j, Unbuildable(j.phases, j.index, here)), j.nextObj)
  {
    var count, unbuildable := |j.phases|, Unbuildable(j.phases, j.index, here);
    MovesPermute(count, j.index, unbuildable);
    var ready := Picked(j.index + 1, count, unbuildable, false);
    var later := Picked(j.index + 1, count, unbuildable, true);
    var rest := Picked(j.index + 1, count, {}, false);
    WouldMoveCompares(j, here);
    EmptyReady(j, here);
    if ready == [] || ready + later == rest {
      return false, j.phases;
    }
    qs := MoveBehind(j.phases, j.index, j.nextObj, ready, unbuildable);
    return true, qs;
  }

  lemma {:induction false} LastIsThat(j: Job, here: set<Platform>, qs: seq<Phase>)
    requires j.index < |j.phases| && WouldMove(j, here)
    requires Permutes(MoveOf(j, Unbuildable(j.phases, j.index, here)), |j.phases|)
    requires qs == Reordered(j.phases, MoveOf(j, Unbuildable(j.phases, j.index, here)), j.nextObj)
    ensures UnbuildableLast(j, here) == j.(phases := qs, nextObj := j.nextObj + |j.phases|)
  {
  }

  /** Which of the phases left were found done; one the answer left out is not. */
  method DoneOf(found: map<nat, bool>, start: nat, count: nat) returns (done: seq<bool>)
    requires start <= count
    ensures |done| == count - start && forall k: nat :: k < |done| ==> done[k] == (start + k + 1 in found && found[start + k + 1])
  {
    done := [];
    for i := start to count
      invariant |done| == i - start
      invariant forall k: nat :: k < |done| ==> done[k] == (start + k + 1 in found && found[start + k + 1])
    {
      done := done + [i + 1 in found && found[i + 1]];
    }
  }

  /** How many phases were finished without a break. */
  method DoneRun(done: seq<bool>) returns (n: nat)
    ensures n <= |done| && (forall i :: 0 <= i < n ==> done[i]) && (n < |done| ==> !done[n])
    ensures n == LeadingRun(done)
  {
    n := 0;
    while n < |done| && done[n]
      invariant n <= |done| && forall i :: 0 <= i < n ==> done[i]
      invariant LeadingRun(done) == n + LeadingRun(done[n..])
    {
      assert done[n..][1..] == done[n + 1..];
      n := n + 1;
    }
  }

  lemma {:induction false} EditIs(j: Job, drafts: seq<Draft>)
    requires j.state == AwaitArchitecture && drafts != [] && Sound(Compose(j, KeptOf(j), drafts), 0)
    ensures EditStep(j, drafts) == Some(NewPlan(j, KeptOf(j), drafts).(index := KeptOf(j)))
  {
  }

  lemma {:induction false} ReadIsThat(j: Job, found: map<nat, bool>, done: seq<bool>)
    requires j.pause.Some?
    requires var start := if j.pause.value.index < |j.phases| then j.pause.value.index else |j.phases|;
      |done| == |j.phases| - start && forall k: nat :: k < |done| ==> done[k] == (start + k + 1 in found && found[start + k + 1])
    ensures var start := if j.pause.value.index < |j.phases| then j.pause.value.index else |j.phases|;
      ReadStep(j, found) == j.(state := AwaitReconcile, reading := Some(Reading(start, done)))
  {
    assert done == ReadStep(j, found).reading.value.done;
  }

  lemma {:induction false} StaysValid(cfg: Config, j: Job, e: Event, k: Job)
    requires Inv(cfg, j) && Trusted(j, e) && Next(cfg, j, e) == Some(k)
    ensures Inv(cfg, k)
  {
    StepKeeps(cfg, j, e);
  }

  predicate OtherDecision(e: Event)
  {
    || e.Rejected? || e.PausePressed? || e.CarriedOn? || e.Redirected? || e.PhaseReplanned? || e.Retried? || e.StartedOver?
  }

  // -- the development ------------------------------------------------------------------

  /** The development as it is stored: every method changes its record and saves it. */
  class Development {
    const cfg: Config
    var job: Job

    ghost predicate Valid()
      reads this
    {
      Inv(cfg, job)
    }

    constructor (cfg: Config)
      ensures this.cfg == cfg && job == NEW_JOB && Valid()
    {
      this.cfg := cfg;
      job := NEW_JOB;
    }

    // -- handlers of a phase --------------------------------------------------------------

    /** `_park`: false when nothing is free of the phase in turn, and the person is asked now. */
    method Park(why: string) returns (parkedIt: bool)
      requires Ranged(job.phases) && Distinct(job.phases, job.nextObj) && job.index < |job.phases| && job.state == Developing
      modifies this
      ensures parkedIt <==> SomeFree(old(job))
      ensures job == if parkedIt then ParkStep(cfg.filing, old(job), why) else old(job)
    {
      var held := Held(why, job.wip, job.work, InTurn(job).uid);
      var free, qs, filed := ParkedPlan(cfg.filing, job, held);
      if free == [] {
        return false;
      }
      ParkIsThat(cfg.filing, job, why, qs, filed);
      job := job.(phases := qs, nextObj := job.nextObj + |job.phases|, parked := filed, work := NO_WORK, wip := "");
      return true;
    }

    /** `_put_unbuildable_last`. */
    method PutUnbuildableLast(here: set<Platform>)
      requires Ranged(job.phases) && Distinct(job.phases, job.nextObj) && job.index < |job.phases|
      modifies this
      ensures job == UnbuildableLast(old(job), here)
    {
      var moves, qs := LastPlan(job, here);
      if moves {
        LastIsThat(job, here, qs);
        job := job.(phases := qs, nextObj := job.nextObj + |job.phases|);
      }
    }

    /** One phase's turn in `_develop`, up to where `_park` goes on with the next. */
    method DevelopOne(here: set<Platform>, screens: bool, fits: bool, answer: Answer)
      requires Ranged(job.phases) && Distinct(job.phases, job.nextObj) && job.state == Developing
      modifies this
      ensures job == DevelopStep(cfg.filing, old(job), here, screens, fits, answer)
    {
      if |job.phases| <= job.index {
        job := FailStep(job);
      } else if job.index + 1 in job.parked {
        job := UnparkStep(job, fits);
      } else {
        ReadyLoose(job, here);
        if !BuildableHere(InTurn(job), here) {
          PutUnbuildableLast(here);
        }
        Turn(here, screens, answer);
      }
    }

    /** The phase in turn is one that can be built here, if any is left. */
    method Turn(here: set<Platform>, screens: bool, answer: Answer)
      requires Ranged(job.phases) && Distinct(job.phases, job.nextObj) && job.index < |job.phases| && job.state == Developing
      modifies this
      ensures job == TurnStep(cfg.filing, old(job), here, screens, answer)
    {
      if !BuildableHere(InTurn(job), here) {
        job := job.(state := AwaitBuilder, builderResume := Developing);
      } else if screens {
        job := job.(state := AwaitDesign);
      } else {
        match answer
        case Written(diff) => job := job.(state := BuildGate, wip := diff, unread := job.unread[job.index + 1 := 0]);
        case Broken => job := FailStep(job);
        case Looped => job := AskStep(job, Developing);
        case Spent(why) =>
          var parkedIt := Park(why);
          if !parkedIt {
            job := AskAboutBudget(job);
          }
      }
    }

    /** The builds of `_build_gate`: while one fails and QA corrects its own tests, the gate is
        built again. It is green exactly when one of those builds passes. */
    method BuildUntilSettled(builds: Builds) returns (gate: Gate)
      ensures gate == GateOf(cfg, job, builds)
      ensures gate.Green? <==> exists n: nat :: GreenAt(cfg, job.gateFixes, builds, n)
      ensures gate.Lost? <==> exists n: nat :: LostAt(cfg, job.gateFixes, builds, n)
      ensures gate.Red? <==> exists n: nat :: RedAt(cfg, job.gateFixes, builds, n)
      ensures forall n: nat :: GateEndsAt(cfg, job.gateFixes, builds, n) ==>
        GateIs(cfg, job.wip, job.work.diagnosis, job.gateFixes, builds, n, gate)
    {
      GateComesTo(cfg, job.wip, job.work.diagnosis, job.gateFixes, builds);
      var i, fixes, left, diagnosis := 0, job.gateFixes, job.wip, job.work.diagnosis;
      while true
        invariant GateFrom(cfg, left, diagnosis, fixes, builds, i) == GateOf(cfg, job, builds)
        decreases cfg.maxGateFixes - fixes
      {
        match builds.build(i)
        case NoBuilder => return Lost(left, diagnosis, fixes);
        case Passing => return Green(left, builds.review);
        case Failing(output) =>
          if cfg.maxGateFixes <= fixes {
            return Red(left, output, diagnosis, builds.choice, fixes);
          }
          match builds.triage(i)
          case Corrected(fixed) =>
            left, diagnosis, fixes, i := fixed, "", fixes + 1, i + 1;
          case Blamed(why) =>
            return Red(left, output, why, builds.choice, fixes);
      }
    }

    // -- handlers of the whole plan -------------------------------------------------------

    /** `_qa_write`: the tests are written, and the whole project is built, until it is green. They
        are put to a person exactly when it was, and QA has failed otherwise. */
    method WriteTests(rounds: Rounds)
      modifies this
      ensures job == QaWriteFrom(cfg, old(job), rounds, 0, true)
      ensures TestsIs(old(job), job, Tested(cfg, old(job).work.attempts, rounds))
    {
      assert RedJob(job, 0) == job;
      TestsFrom(cfg, job, rounds, 0);
      var i, write := 0, true;
      while true
        invariant QaWriteFrom(cfg, job, rounds, i, write) == QaWriteFrom(cfg, old(job), rounds, 0, true)
        decreases cfg.maxAttempts - job.work.attempts
      {
        if write && !rounds.written(i) {
          job := FailStep(job);
          return;
        }
        if rounds.green(i) {
          job := job.(state := AwaitTest, work := job.work.(attempts := 0, output := "", diagnosis := ""));
          return;
        }
        job := job.(work := job.work.(attempts := job.work.attempts + 1));
        write := !rounds.codeIsWrong(i);
        if cfg.maxAttempts <= job.work.attempts || (!write && !rounds.fixed(i)) {
          job := FailStep(job);
          return;
        }
        i := i + 1;
      }
    }

    /** The checks of the pull request in `_devops`: waited for, and fixed while they are red. It is
        done exactly when they pass, and has failed otherwise. */
    method WaitForChecks(ci: nat -> Ci)
      modifies this
      ensures job == ShipFrom(cfg, old(job), ci, 0)
      ensures ShippedIs(old(job), job, ChecksPass(cfg, old(job).ciAttempts, ci))
    {
      assert job.(ciAttempts := job.ciAttempts + 0) == job;
      ChecksFrom(cfg, job, ci, 0);
      var i := 0;
      while true
        invariant ShipFrom(cfg, job, ci, i) == ShipFrom(cfg, old(job), ci, 0)
        decreases cfg.maxCiAttempts - job.ciAttempts
      {
        match ci(i)
        case CiPassed =>
          job := job.(state := Done);
          return;
        case CiPending =>
          job := FailStep(job);
          return;
        case CiRed(fixed) =>
          job := job.(ciAttempts := job.ciAttempts + 1);
          if cfg.maxCiAttempts < job.ciAttempts || !fixed {
            job := FailStep(job);
            return;
          }
          i := i + 1;
      }
    }

    /** `_architecture`: a plan that is not sound is refused, and so is one rejected too often. */
    method MakePlan(drafts: seq<Draft>)
      requires KeptOf(job) <= |job.phases|
      modifies this
      ensures job == PlanStep(cfg, old(job), drafts)
    {
      var kept := KeptOf(job);
      var whole := Whole(job.phases, kept, drafts);
      if cfg.maxRejects < job.rejects {
        job := FailStep(job);
        return;
      }
      var qs := Compose(job, kept, whole);
      var problem := DependencyProblem(qs, kept);
      if problem.Some? {
        job := FailStep(job);
        return;
      }
      TakePlan(kept, whole, qs);
      job := job.(state := AwaitArchitecture, work := job.work.(attempts := 0, output := ""));
    }

    /** A plan that passed its check is the plan now, and nothing past the phases kept is built. */
    method TakePlan(kept: nat, ghost drafts: seq<Draft>, qs: seq<Phase>)
      requires qs == Compose(job, kept, drafts)
      modifies this
      ensures job == NewPlan(old(job), kept, drafts).(index := kept)
    {
      job := job.(
        phases := qs, nextObj := job.nextObj + |qs|, nextUid := job.nextUid + |qs|, want := ComposeWants(job, qs),
        plan := job.plan + 1, index := kept);
    }

    /** `_reconcile`: phase by phase, what the Architect found. */
    method ReadPhases(found: map<nat, bool>)
      modifies this
      ensures job == ReadStep(old(job), found)
    {
      if job.pause.None? {
        job := FailStep(job);
        return;
      }
      var start := if job.pause.value.index < |job.phases| then job.pause.value.index else |job.phases|;
      var done := DoneOf(found, start, |job.phases|);
      ReadIsThat(job, found, done);
      job := job.(state := AwaitReconcile, reading := Some(Reading(start, done)));
    }

    /** One handler, as `_run` calls it for the state it finds. */
    method Handle(t: Input)
      requires Valid() && Working(job.state) && Trusted(job, EventOf(job.state, t))
      modifies this
      ensures Valid() && Some(job) == Next(cfg, old(job), EventOf(old(job).state, t))
    {
      HandlerGoesOn(cfg, job, t);
      StaysValid(cfg, job, EventOf(job.state, t), Next(cfg, job, EventOf(job.state, t)).value);
      if t.mishap == Crashes {
        job := FailStep(job);
      } else if t.mishap == Loops && job.state != BuildGate && job.state != Review {
        job := AskStep(job, job.state);
      } else {
        match job.state {
          case Backlog =>
            job := if cfg.maxRejects < job.rejects then FailStep(job)
                   else job.(state := if t.combined then Architecture else AwaitBacklog);
          case Architecture => MakePlan(t.drafts);
          case Design => job := job.(state := Developing);
          case Developing => DevelopOne(t.here, t.screens, t.fits, t.answer);
          case BuildGate =>
            var gate := BuildUntilSettled(t.builds);
            job := GateStep(cfg, job, gate);
          case Review => job := ReviewStep(cfg, job, t.blocking, t.enforced);
          case Qa =>
            if job.qaStage == 1 {
              job := job.(state := AwaitTest);
            } else {
              WriteTests(t.rounds);
            }
          case DevOps =>
            if t.shipping.proposed && job.devopsStage == 1 {
              job := job.(state := AwaitDeploy);
            } else {
              job := job.(devopsStage := 2);
              WaitForChecks(t.shipping.ci);
            }
          case Reconcile => ReadPhases(t.found);
        }
      }
    }

    // -- what people decide ---------------------------------------------------------------

    /** What a decision came to: the event's step, keeping the invariant, or nothing at all
        when it is refused. */
    twostate predicate Came(e: Event, ok: bool)
      reads this
    {
      var step := Next(cfg, old(job), e);
      (ok <==> step.Some?) && job == (if ok then step.value else old(job)) && Valid()
    }

    /** `set_plan`: a person's edit of the plan, checked as one the Architect wrote. */
    method SetPlan(drafts: seq<Draft>) returns (taken: bool)
      requires Valid() && Trusted(job, PlanEdited(drafts))
      modifies this
      ensures Came(PlanEdited(drafts), taken)
    {
      if job.state != AwaitArchitecture || drafts == [] {
        return false;
      }
      var qs := Compose(job, KeptOf(job), drafts);
      var problem := DependencyProblem(qs, 0);
      if problem.Some? {
        return false;
      }
      EditIs(job, drafts);
      StepKeeps(cfg, job, PlanEdited(drafts));
      TakePlan(KeptOf(job), drafts, qs);
      return true;
    }

    /** `_accept_reconcile`: what was finished by hand without a break is passed over, and nothing
        behind the first that was not. */
    method AcceptReconcile()
      requires job.reading.Some? && job.reading.value.start + |job.reading.value.done| == |job.phases|
      modifies this
      ensures var before := old(job); var Reading(start, done) := before.reading.value;
        && start <= job.index <= |before.phases| && (forall k :: 0 <= k < job.index - start ==> done[k])
        && (job.index < |before.phases| ==> !done[job.index - start])
        && job.log == before.log + HandLog(before.phases, start, job.index)
        && job.state == if job.index == |before.phases| then Qa else Developing
      ensures job == AcceptReading(old(job))
    {
      var start := job.reading.value.start;
      var run := DoneRun(job.reading.value.done);
      job := job.(
        index := start + run, work := NO_WORK, gateFixes := 0, log := job.log + HandLog(job.phases, start, start + run),
        state := if start + run == |job.phases| then Qa else Developing);
    }

    /** `approve`. */
    method Approve(drawing: bool, empty: bool) returns (ok: bool)
      requires Valid()
      modifies this
      ensures Came(Approved(drawing, empty), ok)
    {
      ok := Decide(drawing, empty);
      if ok {
        StepKeeps(cfg, old(job), Approved(drawing, empty));
      }
    }

    /** What an approval comes to: at the gate of what people pushed the finished phases are
        passed over, at every other the table says. */
    method Decide(drawing: bool, empty: bool) returns (ok: bool)
      modifies this
      ensures var step := ApproveStep(old(job), drawing, empty);
        (ok <==> step.Some?) && job == if ok then step.value else old(job)
    {
      if job.state == AwaitReconcile {
        ok := job.reading.Some? && job.reading.value.start + |job.reading.value.done| == |job.phases|;
        if ok {
          job := job.(rejects := 0);
          AcceptReconcile();
        }
      } else {
        var step := ApproveStep(job, drawing, empty);
        ok := step.Some?;
        job := OrElse(step, job);
      }
    }

    /** The other decisions: `reject`, `pause`, `carry_on`, `redirect`, `replan_phase`, `retry`
        and `replan`. */
    method Decided(e: Event) returns (ok: bool)
      requires Valid() && OtherDecision(e)
      modifies this
      ensures Came(e, ok)
    {
      var step := match e
        case Rejected => RejectStep(job)
        case PausePressed => When(Pausable(job.state), job.(state := Paused, pause := Some(Pause(job.state, job.index))))
        case CarriedOn(brought) => CarryOnStep(job, brought)
        case Redirected => RedirectStep(job)
        case PhaseReplanned =>
          When(job.state == AwaitDecision && job.budgetStop, ReplanFromStep(job.(resume := None), job.index))
        case Retried => RetryStep(job)
        case StartedOver => StartOverStep(job);
      ok := step.Some?;
      if ok {
        StaysValid(cfg, job, e, step.value);
        job := step.value;
      }
    }

    /** `_supervise`: an approval is counted before it is made, and stays counted if it is refused. */
    method Supervise(drawing: bool, empty: bool) returns (ok: bool)
      requires Valid()
      modifies this
      ensures Came(AutoApproved(drawing, empty), ok)
    {
      ok := Approval(job.state) && job.state != AwaitDecision && job.autoApprovals < cfg.cap;
      if ok {
        job := Counted(job);
        var made := Decide(drawing, empty);
        StepKeeps(cfg, old(job), AutoApproved(drawing, empty));
      }
    }

    // -- the run loop ---------------------------------------------------------------------

    /** The rounds `from` to `i` of a run that began as `start` led here. */
    ghost predicate Ran(start: Job, inputs: nat -> Input, i: nat)
      reads this
    {
      Valid() && job == After(cfg, start, inputs, i)
    }

    /** One round of a handler. */
    method Advance(ghost start: Job, inputs: nat -> Input, i: nat)
      requires cfg.filing.ByPhase? && Working(job.state) && Ran(start, inputs, i) && AllTrusted(cfg, start, inputs)
      modifies this
      ensures Ran(start, inputs, i + 1) && Below(LeftTo(cfg, job), LeftTo(cfg, old(job)))
    {
      assert TrustedAt(cfg, start, inputs, i);
      RoundLeaves(cfg, job, inputs(i));
      Handle(inputs(i));
    }

    /** `_develop`: `_park` goes on with the next phase by calling it again, so what it returns is
        never still being developed, as the run loop wants of every handler. */
    method Develop(ghost start: Job, inputs: nat -> Input, from: nat) returns (i: nat)
      requires cfg.filing.ByPhase? && job.state == Developing && Ran(start, inputs, from) && AllTrusted(cfg, start, inputs)
      modifies this
      ensures Ran(start, inputs, i) && job.state != Developing && Below(LeftTo(cfg, job), LeftTo(cfg, old(job)))
      decreases
        LeftTo(cfg, job).approvals, LeftTo(cfg, job).rank, LeftTo(cfg, job).unsettled, LeftTo(cfg, job).open,
        LeftTo(cfg, job).rounds, LeftTo(cfg, job).turn, LeftTo(cfg, job).unread, LeftTo(cfg, job).attempts,
        LeftTo(cfg, job).last
    {
      Advance(start, inputs, from);
      i := from + 1;
      if job.state == Developing {
        ghost var between := LeftTo(cfg, job);
        i := Develop(start, inputs, i);
        BelowTwice(LeftTo(cfg, job), between, LeftTo(cfg, old(job)));
      }
    }

    /** The supervisor's round at a gate, when the last handler came to one. */
    method AtGate(ghost start: Job, inputs: nat -> Input, from: nat) returns (i: nat)
      requires cfg.filing.ByPhase? && Ran(start, inputs, from)
      modifies this
      ensures Ran(start, inputs, i)
      ensures job == old(job) || Below(LeftTo(cfg, job), LeftTo(cfg, old(job)))
    {
      i := from;
      if Approval(job.state) && inputs(from).approves {
        GateRoundLeaves(cfg, job, inputs(from));
        var ok := Supervise(inputs(from).drawing, inputs(from).empty);
        i := from + 1;
      }
    }

    /** `_run`: handlers, and the supervisor at the gates they come to, until it is at rest. */
    method Run(inputs: nat -> Input) returns (i: nat)
      requires cfg.filing.ByPhase? && Valid() && AllTrusted(cfg, job, inputs)
      modifies this
      ensures Valid() && !Working(job.state) && job == After(cfg, old(job), inputs, i)
    {
      ghost var start := job;
      i := 0;
      while Working(job.state)
        invariant Ran(start, inputs, i)
        decreases
          LeftTo(cfg, job).approvals, LeftTo(cfg, job).rank, LeftTo(cfg, job).unsettled, LeftTo(cfg, job).open,
          LeftTo(cfg, job).rounds, LeftTo(cfg, job).turn, LeftTo(cfg, job).unread, LeftTo(cfg, job).attempts,
          LeftTo(cfg, job).last
      {
        ghost var before := LeftTo(cfg, job);
        if job.state == Developing {
          i := Develop(start, inputs, i);
        } else {
          Advance(start, inputs, i);
          i := i + 1;
        }
        ghost var between := LeftTo(cfg, job);
        i := AtGate(start, inputs, i);
        if LeftTo(cfg, job) != between {
          BelowTwice(LeftTo(cfg, job), between, before);
        }
      }
    }
  }
}
