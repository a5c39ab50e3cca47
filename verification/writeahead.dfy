/**
 Answers written ahead (`_write_ahead`, `_take_ahead`, `_drop_ahead`, slipwright/engine.py):
 while a phase is being built, the answers of later phases that need nothing still to be
 built are already being written, and are taken when the turn of their number comes.
 */
module WriteAhead {
  import opened Wrappers
  import opened Plan
  import opened Reordering
  import opened Job
  import opened Safety
  import opened Parking

  /** An answer on its way: `uid` is the phase it was started for. */
  datatype Future = Future(id: nat, uid: nat, done: bool)

  type Running = map<nat, Future>

  /** The answers not finished yet. */
  function Unfinished(running: Running): set<nat>
  {
    set n | n in running && !running[n].done
  }

  /** What is started ahead: it says what it needs, and all of that is committed. */
  predicate Startable(ps: seq<Phase>, index: nat, allowed: set<nat>, n: nat)
  {
    1 <= n <= |ps| && At(ps, n).needs.Some? && n in allowed && forall d :: d in At(ps, n).needs.value ==> 1 <= d <= index
  }

  /** The first `room` phases from `n` on that are ready and not running. */
  function Chosen(ps: seq<Phase>, index: nat, allowed: set<nat>, running: Running, n: nat, room: int): seq<nat>
    decreases |ps| + 1 - n
  {
    if |ps| < n || room <= 0 then []
    else if Startable(ps, index, allowed, n) && n !in running then [n] + Chosen(ps, index, allowed, running, n + 1, room - 1)
    else Chosen(ps, index, allowed, running, n + 1, room)
  }

  lemma {:induction false} ChosenAre(ps: seq<Phase>, index: nat, allowed: set<nat>, running: Running, n: nat, room: int)
    ensures var c := Chosen(ps, index, allowed, running, n, room);
      && |c| <= (if room < 0 then 0 else room)
      && (forall k :: k in c ==> n <= k && Startable(ps, index, allowed, k) && k !in running)
      && (forall k :: k in c ==> k in allowed && At(ps, k).needs.Some?)
      && Ascending(c)
      && (|c| < room ==> forall k :: n <= k && Startable(ps, index, allowed, k) && k !in running ==> k in c)
    decreases |ps| + 1 - n
  {
    if n <= |ps| && 0 < room {
      var c := Chosen(ps, index, allowed, running, n, room);
      if Startable(ps, index, allowed, n) && n !in running {
        var rest := Chosen(ps, index, allowed, running, n + 1, room - 1);
        ChosenAre(ps, index, allowed, running, n + 1, room - 1);
        assert c == [n] + rest;
        forall i, k | 0 <= i < k < |c| ensures c[i] < c[k] {
          assert c[k] == rest[k - 1] && rest[k - 1] in rest;
          assert 0 < i ==> c[i] == rest[i - 1];
        }
      } else {
        ChosenAre(ps, index, allowed, running, n + 1, room);
      }
    }
  }

  // -- what runs side by side -----------------------------------------------------------

  /** A phase started ahead depends on nothing that is still to be built. */
  lemma {:induction false} StartableDependsOnBuilt(ps: seq<Phase>, index: nat, allowed: set<nat>, n: nat, k: nat)
    requires Backward(ps) && Startable(ps, index, allowed, n) && DependsOn(ps, 0, n, k) && k != n
    ensures 1 <= k <= index
  {
    var d := DependsOnLast(ps, 0, n, k);
    assert States(ps, n, d);
    DependsOnEarlier(ps, 0, d, k);
  }

  // -- the answers ----------------------------------------------------------------------

  /** One taken answer: which, the phase it was started for, and the phase it was taken for. */
  datatype Taken = Taken(id: nat, uid: nat, inTurn: nat)

  /** Every answer is on its way under the number of the phase it was started for. */
  ghost predicate Filed(ps: seq<Phase>, running: Running)
  {
    forall n :: n in running ==> 1 <= n <= |ps| && running[n].uid == At(ps, n).uid
  }

  /** The answers `started` are on their way now beside those before. */
  ghost predicate Added(before: Running, running: Running, started: seq<nat>)
  {
    && (forall k :: k in running <==> k in before || k in started)
    && (forall k :: k in before ==> running[k] == before[k])
    && (forall k :: k in started ==> k !in before && !running[k].done)
    && |Unfinished(running)| == |Unfinished(before)| + |started|
  }

  /** The phases after the one in turn, looked at one by one while there is room. */
  method Choose(ps: seq<Phase>, index: nat, allowed: set<nat>, running: Running, most: int) returns (started: seq<nat>)
    ensures started == Chosen(ps, index, allowed, running, index + 2, most)
  {
    started := [];
    var room, n := most, index + 2;
    while n <= |ps| && 0 < room
      invariant Chosen(ps, index, allowed, running, index + 2, most) == started + Chosen(ps, index, allowed, running, n, room)
      decreases |ps| + 1 - n
    {
      if Startable(ps, index, allowed, n) && n !in running {
        started := started + [n];
        room := room - 1;
      }
      n := n + 1;
    }
  }

  lemma {:induction false} AddedOne(before: Running, were: Running, running: Running, started: seq<nat>, n: nat)
    requires Added(before, were, started) && n !in were && n in running && running == were[n := running[n]] && !running[n].done
    requires |Unfinished(running)| == |Unfinished(were)| + 1
    ensures Added(before, running, started + [n])
  {
  }

  lemma {:induction false} NotYet(started: seq<nat>, i: nat)
    requires Ascending(started) && i < |started|
    ensures started[i] in started && started[i] !in started[..i] && started[..i + 1] == started[..i] + [started[i]]
  {
  }

  class Answers {
    var running: Running
    var nextId: nat
    ghost var taken: seq<Taken>

    /** No answer is there twice, and none that was taken is still there. */
    ghost predicate Valid()
      reads this
    {
      && (forall n :: n in running ==> running[n].id < nextId)
      && (forall m, n :: m in running && n in running && running[m].id == running[n].id ==> m == n)
      && (forall i: nat :: i < |taken| ==> taken[i].id < nextId)
      && (forall i: nat, n :: i < |taken| && n in running ==> taken[i].id != running[n].id)
      && (forall i: nat, k: nat :: i < k < |taken| ==> taken[i].id != taken[k].id)
    }

    /** Every answer taken was taken for the phase it was started for. */
    ghost predicate TakenRightly()
      reads this
    {
      forall i: nat :: i < |taken| ==> taken[i].uid == taken[i].inTurn
    }

    constructor ()
      ensures Valid() && TakenRightly() && running == map[] && taken == []
    {
      running, nextId, taken := map[], 0, [];
    }

    /** `_start_ahead`. */
    method Start(n: nat, uid: nat)
      requires Valid() && n !in running
      modifies this`running, this`nextId
      ensures Valid() && running == old(running)[n := Future(old(nextId), uid, false)]
      ensures |Unfinished(running)| == |Unfinished(old(running))| + 1
    {
      assert Unfinished(running[n := Future(nextId, uid, false)]) == Unfinished(running) + {n};
      running, nextId := running[n := Future(nextId, uid, false)], nextId + 1;
    }

    /** `_write_ahead`: `allowed` are the phases that wait for no builder and no design. */
    method WriteAhead(ps: seq<Phase>, index: nat, limit: nat, allowed: set<nat>) returns (started: seq<nat>)
      requires Valid() && Filed(ps, running)
      modifies this`running, this`nextId
      ensures Valid() && Filed(ps, running)
      ensures started == Chosen(ps, index, allowed, old(running), index + 2, (if limit == 0 then 1 else limit) - 1 - |Unfinished(old(running))|)
      ensures Added(old(running), running, started)
    {
      var room := (if limit == 0 then 1 else limit) - 1 - |Unfinished(running)|;
      started := Choose(ps, index, allowed, running, room);
      ChosenAre(ps, index, allowed, running, index + 2, room);
      StartAll(ps, started);
    }

    method StartAll(ps: seq<Phase>, started: seq<nat>)
      requires Valid() && Ascending(started)
      requires forall n :: n in started ==> 1 <= n <= |ps| && n !in running
      modifies this`running, this`nextId
      ensures Valid() && Added(old(running), running, started)
      ensures forall n :: n in started ==> running[n].uid == At(ps, n).uid
    {
      for i := 0 to |started|
        invariant Valid() && Added(old(running), running, started[..i])
        invariant forall n :: n in started[..i] ==> running[n].uid == At(ps, n).uid
      {
        NotYet(started, i);
        ghost var were := running;
        Start(started[i], At(ps, started[i]).uid);
        AddedOne(old(running), were, running, started[..i], started[i]);
      }
      assert started[..|started|] == started;
    }

    /** An answer comes in. */
    method Finish(n: nat)
      requires Valid() && n in running
      modifies this`running
      ensures Valid() && running == old(running)[n := old(running)[n].(done := true)]
    {
      running := running[n := running[n].(done := true)];
    }

    /** `_take_ahead`: the answer for the phase in turn, if one is there; it is not there again. */
    method Take(ps: seq<Phase>, index: nat) returns (answer: Option<Future>)
      requires Valid() && index < |ps|
      modifies this`running, this`taken
      ensures Valid()
      ensures answer == if index + 1 in old(running) then Some(old(running)[index + 1]) else None
      ensures running == old(running) - {index + 1}
      ensures taken == old(taken) + if answer.Some? then [Taken(answer.value.id, answer.value.uid, At(ps, index + 1).uid)] else []
      ensures old(Filed(ps, running) && TakenRightly()) ==> Filed(ps, running) && TakenRightly()
    {
      if index + 1 !in running {
        assert running == running - {index + 1};
        return None;
      }
      var future := running[index + 1];
      taken := taken + [Taken(future.id, future.uid, At(ps, index + 1).uid)];
      running := running - {index + 1};
      return Some(future);
    }

    /** `_drop_ahead`. */
    method Drop()
      requires Valid()
      modifies this`running
      ensures Valid() && running == map[]
    {
      running := map[];
    }
  }

  /** Never more answers are on their way than the limit leaves beside the phase in turn,
      unless more already were. */
  lemma {:induction false} NeverTooMany(ps: seq<Phase>, index: nat, limit: nat, allowed: set<nat>, running: Running)
    ensures var room := (if limit == 0 then 1 else limit) - 1 - |Unfinished(running)|;
      var after := |Unfinished(running)| + |Chosen(ps, index, allowed, running, index + 2, room)|;
      after <= |Unfinished(running)| || after <= limit - 1
  {
    var room := (if limit == 0 then 1 else limit) - 1 - |Unfinished(running)|;
    ChosenAre(ps, index, allowed, running, index + 2, room);
  }
}
