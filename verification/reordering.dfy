/**
 Moving the phases not started yet (`Engine._reorder`, slipwright/engine.py): the ones
 in `later` go behind the others, each group keeping its own order, and the numbers the
 phases depend on follow them.
 */
module Reordering {
  import opened Wrappers
  import opened Plan

  /** The numbers from `lo` to `hi` that are in `later`, or those that are not, in order. */
  function Pick(lo: nat, hi: nat, later: set<nat>, want: bool): (s: seq<nat>)
    decreases hi + 1 - lo
  {
    if hi < lo then [] else (if (lo in later) == want then [lo] else []) + Pick(lo + 1, hi, later, want)
  }

  ghost predicate Ascending(s: seq<nat>)
  {
    forall i, j :: 0 <= i < j < |s| ==> s[i] < s[j]
  }

  lemma {:induction false} PickIs(lo: nat, hi: nat, later: set<nat>, want: bool)
    ensures Ascending(Pick(lo, hi, later, want))
    ensures forall n: nat :: n in Pick(lo, hi, later, want) <==> lo <= n <= hi && (n in later) == want
    decreases hi + 1 - lo
  {
    if lo <= hi {
      PickIs(lo + 1, hi, later, want);
      var s, t := Pick(lo, hi, later, want), Pick(lo + 1, hi, later, want);
      if (lo in later) == want {
        forall i, j | 0 <= i < j < |s| ensures s[i] < s[j] {
          assert s[j] == t[j - 1] && t[j - 1] in t;
          assert i > 0 ==> s[i] == t[i - 1];
        }
      }
    }
  }

  lemma {:induction false} PickLengths(lo: nat, hi: nat, later: set<nat>)
    requires lo <= hi + 1
    ensures |Pick(lo, hi, later, false)| + |Pick(lo, hi, later, true)| == hi + 1 - lo
    decreases hi + 1 - lo
  {
    if lo <= hi {
      PickLengths(lo + 1, hi, later);
    }
  }

  /** The old numbers in their new order. */
  function Moves(count: nat, index: nat, later: set<nat>): (m: seq<nat>)
    requires index <= count
  {
    Pick(1, index, {}, false) + Pick(index + 1, count, later, false) + Pick(index + 1, count, later, true)
  }

  /** `m` lists the numbers from 1 to `count`, each of them once. */
  ghost predicate Permutes(m: seq<nat>, count: nat)
  {
    |m| == count && Once(m) && forall n: nat :: n in m <==> 1 <= n <= count
  }

  /** `a` is set behind `b` although it came first. */
  predicate Overtaken(index: nat, later: set<nat>, a: nat, b: nat)
  {
    index < a < b && a in later && b !in later
  }

  /** The three groups of a move, in the order they come to stand. */
  function Group(index: nat, later: set<nat>, n: nat): nat
  {
    if n <= index then 0 else if n in later then 2 else 1
  }

  /** Groups one after another, each of them in order. */
  ghost predicate Grouped(s: seq<nat>, index: nat, later: set<nat>)
  {
    forall i, j :: 0 <= i < j < |s| ==>
      var g, h := Group(index, later, s[i]), Group(index, later, s[j]); g < h || (g == h && s[i] < s[j])
  }

  lemma {:induction false} GroupedJoin(s: seq<nat>, t: seq<nat>, index: nat, later: set<nat>)
    requires Grouped(s, index, later) && Grouped(t, index, later)
    requires forall x, y :: x in s && y in t ==> Group(index, later, x) < Group(index, later, y)
    ensures Grouped(s + t, index, later)
  {
    var u := s + t;
    forall i, j | 0 <= i < j < |u|
      ensures var g, h := Group(index, later, u[i]), Group(index, later, u[j]); g < h || (g == h && u[i] < u[j])
    {
      if i < |s| <= j {
        assert u[i] in s && u[j] == t[j - |s|] && u[j] in t;
      } else if |s| <= i {
        assert u[i] == t[i - |s|] && u[j] == t[j - |s|];
      }
    }
  }

  lemma {:induction false} PickGrouped(lo: nat, hi: nat, later: set<nat>, want: bool, index: nat)
    requires index < lo
    ensures Ascending(Pick(lo, hi, later, want))
    ensures forall n :: n in Pick(lo, hi, later, want) ==>
      Group(index, later, n) == if want then 2 else 1
    ensures Grouped(Pick(lo, hi, later, want), index, later)
  {
    PickIs(lo, hi, later, want);
    var s := Pick(lo, hi, later, want);
    forall i | 0 <= i < |s| ensures Group(index, later, s[i]) == if want then 2 else 1 {
      assert s[i] in s;
    }
  }

  lemma {:induction false} MovesGrouped(count: nat, index: nat, later: set<nat>)
    requires index <= count
    ensures Grouped(Moves(count, index, later), index, later)
  {
    PrefixStays(index);
    var a, b, c := Pick(1, index, {}, false), Pick(index + 1, count, later, false), Pick(index + 1, count, later, true);
    PickGrouped(index + 1, count, later, false, index);
    PickGrouped(index + 1, count, later, true, index);
    PrefixGrouped(a, index, later);
    GroupedJoin(a, b, index, later);
    forall x, y | x in a + b && y in c ensures Group(index, later, x) < Group(index, later, y) {
      assert x in a || x in b;
    }
    GroupedJoin(a + b, c, index, later);
  }

  lemma {:induction false} MovesComplete(count: nat, index: nat, later: set<nat>)
    requires index <= count
    ensures |Moves(count, index, later)| == count
    ensures forall n: nat :: n in Moves(count, index, later) <==> 1 <= n <= count
    ensures forall i :: 0 <= i < index ==> Moves(count, index, later)[i] == i + 1
  {
    PickIs(1, index, {}, false);
    PickIs(index + 1, count, later, false);
    PickIs(index + 1, count, later, true);
    PrefixStays(index);
    PickLengths(index + 1, count, later);
    JoinComplete(Pick(1, index, {}, false), Pick(index + 1, count, later, false), Pick(index + 1, count, later, true),
                 count, index, later);
  }

  lemma {:induction false} JoinComplete(a: seq<nat>, b: seq<nat>, c: seq<nat>, count: nat, index: nat, later: set<nat>)
    requires index <= count && |a| == index && |b| + |c| == count - index
    requires forall n: nat :: n in a <==> 1 <= n <= index
    requires forall n: nat :: n in b <==> index + 1 <= n <= count && n !in later
    requires forall n: nat :: n in c <==> index + 1 <= n <= count && n in later
    ensures |a + b + c| == count
    ensures forall n: nat :: n in a + b + c <==> 1 <= n <= count
    ensures forall i :: 0 <= i < index ==> (a + b + c)[i] == a[i]
  {
    forall n: nat ensures n in a + b + c <==> n in a || n in b || n in c {
      assert n in a + b + c <==> n in a + b || n in c;
    }
  }

  lemma {:induction false} PrefixGrouped(a: seq<nat>, index: nat, later: set<nat>)
    requires |a| == index && forall i :: 0 <= i < index ==> a[i] == i + 1
    ensures Grouped(a, index, later) && forall x :: x in a ==> Group(index, later, x) == 0
  {
  }

  lemma {:induction false} MovesPermute(count: nat, index: nat, later: set<nat>)
    requires index <= count
    ensures Permutes(Moves(count, index, later), count)
    ensures forall i :: 0 <= i < index ==> Moves(count, index, later)[i] == i + 1
  {
    MovesGrouped(count, index, later);
    MovesComplete(count, index, later);
  }

  lemma {:induction false} PrefixStays(index: nat)
    ensures var a := Pick(1, index, {}, false); |a| == index && forall i :: 0 <= i < index ==> a[i] == i + 1
  {
    PickFrom(1, index);
  }

  lemma {:induction false} PickFrom(lo: nat, hi: nat)
    requires lo <= hi + 1
    ensures var a := Pick(lo, hi, {}, false); |a| == hi + 1 - lo && forall i :: 0 <= i < |a| ==> a[i] == lo + i
    decreases hi + 1 - lo
  {
    if lo <= hi {
      PickFrom(lo + 1, hi);
    }
  }

  /** The new number of the phase that was numbered `n`. */
  function Place(m: seq<nat>, n: nat): (r: nat)
    requires n in m
    ensures 1 <= r <= |m| && m[r - 1] == n
  {
    if m[0] == n then 1 else 1 + Place(m[1..], n)
  }

  /** The old number of the phase that is now numbered `k`. */
  function Was(m: seq<nat>, count: nat, k: nat): (n: nat)
    requires Permutes(m, count) && 1 <= k <= count
    ensures n in m && 1 <= n <= count && Place(m, n) == k
  {
    assert m[k - 1] in m;
    var r := Place(m, m[k - 1]);
    assert m[r - 1] == m[k - 1];
    m[k - 1]
  }

  /** Which phases change places: exactly those that are overtaken. */
  lemma {:induction false} PlaceOrder(count: nat, index: nat, later: set<nat>, a: nat, b: nat)
    requires index <= count && 1 <= a < b <= count
    ensures var m := Moves(count, index, later);
      a in m && b in m && Place(m, a) != Place(m, b) && (Place(m, b) < Place(m, a) <==> Overtaken(index, later, a, b))
  {
    MovesGrouped(count, index, later);
    MovesComplete(count, index, later);
    var m := Moves(count, index, later);
    var pa, pb := Place(m, a), Place(m, b);
    assert m[pa - 1] == a && m[pb - 1] == b;
  }

  /** One phase after the move: a phase that names what it needs is built anew. */
  function Renumbered(p: Phase, m: seq<nat>, obj: nat): Phase
  {
    if p.needs.None? then p
    else p.(obj := obj, needs := Some(set d | d in p.needs.value && d in m :: Place(m, d)))
  }

  function Reordered(ps: seq<Phase>, m: seq<nat>, nextObj: nat): (qs: seq<Phase>)
    requires Permutes(m, |ps|)
    ensures |qs| == |ps|
  {
    seq(|ps|, i requires 0 <= i < |ps| => assert m[i] in m; Renumbered(At(ps, m[i]), m, nextObj + i))
  }

  /** Every phase and every record stands in the plan once, and no record is newer than `nextObj`. */
  ghost predicate Distinct(ps: seq<Phase>, nextObj: nat)
  {
    && (forall a: nat, b: nat :: 1 <= a < b <= |ps| ==> At(ps, a).uid != At(ps, b).uid && At(ps, a).obj != At(ps, b).obj)
    && (forall a: nat :: 1 <= a <= |ps| ==> At(ps, a).obj < nextObj)
  }

  lemma {:induction false} SamePhase(ps: seq<Phase>, nextObj: nat, a: nat, b: nat)
    requires Distinct(ps, nextObj) && 1 <= a <= |ps| && 1 <= b <= |ps|
    requires At(ps, a).uid == At(ps, b).uid || At(ps, a).obj == At(ps, b).obj
    ensures a == b
  {
  }

  /** The phases that stand before number `n`. */
  function Before(ps: seq<Phase>, n: nat): set<nat>
  {
    set k: nat | 1 <= k < n && k <= |ps| :: At(ps, k).uid
  }

  /** The phases that phase `n` names as its needs. */
  function NamedBy(ps: seq<Phase>, n: nat): set<nat>
    requires 1 <= n <= |ps|
  {
    if At(ps, n).needs.None? then {} else set d | d in At(ps, n).needs.value && 1 <= d <= |ps| :: At(ps, d).uid
  }

  lemma {:induction false} NamesIt(ps: seq<Phase>, nextObj: nat, n: nat, a: nat)
    requires Distinct(ps, nextObj) && 1 <= n <= |ps| && 1 <= a <= |ps| && At(ps, a).uid in NamedBy(ps, n)
    ensures States(ps, n, a)
  {
    var d :| d in At(ps, n).needs.value && 1 <= d <= |ps| && At(ps, d).uid == At(ps, a).uid;
    SamePhase(ps, nextObj, d, a);
  }

  /** `want` says what each phase of the approved plan needs, whatever its number is now. */
  type Wants = map<nat, set<nat>>

  ghost predicate Faithful(ps: seq<Phase>, want: Wants)
  {
    forall n: nat :: 1 <= n <= |ps| ==> At(ps, n).uid in want && (At(ps, n).needs.Some? ==> NamedBy(ps, n) == want[At(ps, n).uid])
  }

  /** Every phase stands after all it needs. */
  ghost predicate InOrder(ps: seq<Phase>, want: Wants)
  {
    forall n: nat :: 1 <= n <= |ps| ==> At(ps, n).uid in want && want[At(ps, n).uid] <= Before(ps, n)
  }

  /** The move takes every phase with it, and with it the phases it names. */
  lemma {:induction false} ReorderKeepsPhase(ps: seq<Phase>, m: seq<nat>, nextObj: nat, n: nat)
    requires Permutes(m, |ps|) && Ranged(ps) && 1 <= n <= |ps|
    ensures n in m && 1 <= Place(m, n) <= |ps|
    ensures Moved(At(ps, n), At(Reordered(ps, m, nextObj), Place(m, n)), nextObj + Place(m, n) - 1)
    ensures NamedBy(Reordered(ps, m, nextObj), Place(m, n)) == NamedBy(ps, n)
    ensures forall d :: States(ps, n, d) ==> d in m && States(Reordered(ps, m, nextObj), Place(m, n), Place(m, d))
    ensures forall e :: States(Reordered(ps, m, nextObj), Place(m, n), e) ==> exists d :: States(ps, n, d) && d in m && Place(m, d) == e
  {
    var qs := Reordered(ps, m, nextObj);
    var q, p := At(qs, Place(m, n)), At(ps, n);
    assert q == Renumbered(p, m, nextObj + Place(m, n) - 1);
    forall d | States(ps, n, d) ensures d in m && States(qs, Place(m, n), Place(m, d)) {
    }
    forall e | States(qs, Place(m, n), e) ensures exists d :: States(ps, n, d) && d in m && Place(m, d) == e {
      var d :| d in p.needs.value && d in m && Place(m, d) == e;
      assert States(ps, n, d);
    }
    NamesFollow(ps, qs, m, n);
  }

  /** What a move leaves of a phase as it was; the record is the same one unless the phase names what it needs. */
  predicate Moved(p: Phase, q: Phase, obj: nat)
  {
    && q.uid == p.uid && q.platform == p.platform && q.files == p.files && (q.needs.None? <==> p.needs.None?)
    && if p.needs.None? then q == p else q.obj == obj
  }

  lemma {:induction false} NamesFollow(ps: seq<Phase>, qs: seq<Phase>, m: seq<nat>, n: nat)
    requires Permutes(m, |ps|) && |qs| == |ps| && Ranged(ps) && 1 <= n <= |ps| && n in m
    requires forall k: nat :: 1 <= k <= |qs| ==> At(qs, k).uid == At(ps, Was(m, |ps|, k)).uid
    requires At(qs, Place(m, n)).needs == Renumbered(At(ps, n), m, 0).needs
    ensures NamedBy(qs, Place(m, n)) == NamedBy(ps, n)
  {
    if At(ps, n).needs.Some? {
      var ds, es := At(ps, n).needs.value, At(qs, Place(m, n)).needs.value;
      forall d | d in ds ensures 1 <= d <= |ps| && d in m && Place(m, d) in es && At(qs, Place(m, d)).uid == At(ps, d).uid {
        assert States(ps, n, d);
        assert Was(m, |ps|, Place(m, d)) == d;
      }
      forall e | e in es ensures 1 <= e <= |qs| && Was(m, |ps|, e) in ds && At(qs, e).uid == At(ps, Was(m, |ps|, e)).uid {
        var d :| d in ds && d in m && Place(m, d) == e;
        assert Was(m, |ps|, e) == d;
      }
    }
  }

  /** Every phase and every record is there once, and the needs are phases of the plan. */
  lemma {:induction false} ReorderKeepsAll(ps: seq<Phase>, m: seq<nat>, nextObj: nat)
    requires Permutes(m, |ps|) && Ranged(ps) && Distinct(ps, nextObj)
    ensures Distinct(Reordered(ps, m, nextObj), nextObj + |ps|) && Ranged(Reordered(ps, m, nextObj))
  {
    var qs := Reordered(ps, m, nextObj);
    forall k: nat | 1 <= k <= |qs|
      ensures At(qs, k).uid == At(ps, Was(m, |ps|, k)).uid && (At(qs, k).obj == At(ps, Was(m, |ps|, k)).obj || At(qs, k).obj == nextObj + k - 1)
      ensures forall e: nat :: States(qs, k, e) ==> 1 <= e <= |qs|
    {
      ReorderKeepsPhase(ps, m, nextObj, Was(m, |ps|, k));
    }
    forall a: nat, b: nat | 1 <= a < b <= |qs|
      ensures At(qs, a).uid != At(qs, b).uid && At(qs, a).obj != At(qs, b).obj
    {
      var x, y := Was(m, |ps|, a), Was(m, |ps|, b);
      assert x != y;
      if At(ps, x).uid == At(ps, y).uid || At(ps, x).obj == At(ps, y).obj {
        SamePhase(ps, nextObj, x, y);
      }
      assert At(ps, x).obj < nextObj && At(ps, y).obj < nextObj;
    }
    forall a: nat | 1 <= a <= |qs| ensures At(qs, a).obj < nextObj + |ps| {
      assert At(ps, Was(m, |ps|, a)).obj < nextObj;
    }
  }

  lemma {:induction false} ReorderKeepsPlan(ps: seq<Phase>, m: seq<nat>, nextObj: nat, want: Wants)
    requires Permutes(m, |ps|) && Ranged(ps) && Distinct(ps, nextObj) && Faithful(ps, want)
    ensures Faithful(Reordered(ps, m, nextObj), want)
    ensures Distinct(Reordered(ps, m, nextObj), nextObj + |ps|)
  {
    var qs := Reordered(ps, m, nextObj);
    ReorderKeepsAll(ps, m, nextObj);
    forall k: nat | 1 <= k <= |qs|
      ensures At(qs, k).uid in want && (At(qs, k).needs.Some? ==> NamedBy(qs, k) == want[At(qs, k).uid])
    {
      ReorderKeepsPhase(ps, m, nextObj, Was(m, |ps|, k));
    }
  }

  /** The edges still point backwards exactly when nothing is set behind a phase that names it. */
  lemma {:induction false} BackwardAfterMove(ps: seq<Phase>, index: nat, later: set<nat>, nextObj: nat)
    requires index <= |ps| && Backward(ps)
    ensures Permutes(Moves(|ps|, index, later), |ps|)
    ensures Backward(Reordered(ps, Moves(|ps|, index, later), nextObj)) <==>
      forall n: nat, d: nat :: States(ps, n, d) ==> !Overtaken(index, later, d, n)
  {
    MovesPermute(|ps|, index, later);
    var m := Moves(|ps|, index, later);
    var qs := Reordered(ps, m, nextObj);
    if forall n: nat, d: nat :: States(ps, n, d) ==> !Overtaken(index, later, d, n) {
      forall k: nat, e: nat | 0 < k <= |qs| && States(qs, k, e) ensures 1 <= e < k {
        var n := Was(m, |ps|, k);
        ReorderKeepsPhase(ps, m, nextObj, n);
        var d :| States(ps, n, d) && d in m && Place(m, d) == e;
        PlaceOrder(|ps|, index, later, d, n);
      }
    } else {
      var n: nat, d: nat :| States(ps, n, d) && Overtaken(index, later, d, n);
      PlaceOrder(|ps|, index, later, d, n);
      ReorderKeepsPhase(ps, m, nextObj, n);
      assert States(qs, Place(m, n), Place(m, d));
    }
  }

  /** Every phase still stands after all it needs exactly when nothing is set behind a phase that needs it. */
  lemma {:induction false} InOrderAfterMove(ps: seq<Phase>, index: nat, later: set<nat>, nextObj: nat, want: Wants)
    requires index <= |ps| && Backward(ps) && Distinct(ps, nextObj) && InOrder(ps, want)
    ensures Permutes(Moves(|ps|, index, later), |ps|)
    ensures InOrder(Reordered(ps, Moves(|ps|, index, later), nextObj), want) <==> NothingWantedOvertaken(ps, index, later, want)
  {
    MovesPermute(|ps|, index, later);
    var m := Moves(|ps|, index, later);
    var qs := Reordered(ps, m, nextObj);
    if NothingWantedOvertaken(ps, index, later, want) {
      forall k: nat | 1 <= k <= |qs| ensures At(qs, k).uid in want && want[At(qs, k).uid] <= Before(qs, k) {
        ReorderKeepsPhase(ps, m, nextObj, Was(m, |ps|, k));
        WantedBefore(ps, index, later, nextObj, want, Was(m, |ps|, k));
      }
    } else {
      var a: nat, b: nat :| 1 <= b <= |ps| && Overtaken(index, later, a, b) && At(ps, a).uid in want[At(ps, b).uid];
      PlaceOrder(|ps|, index, later, a, b);
      ReorderKeepsPhase(ps, m, nextObj, b);
      NotBefore(ps, m, nextObj, a, b);
    }
  }

  ghost predicate NothingWantedOvertaken(ps: seq<Phase>, index: nat, later: set<nat>, want: Wants)
    requires InOrder(ps, want)
  {
    forall a: nat, b: nat :: 1 <= b <= |ps| && Overtaken(index, later, a, b) ==> At(ps, a).uid !in want[At(ps, b).uid]
  }

  lemma {:induction false} WantedBefore(ps: seq<Phase>, index: nat, later: set<nat>, nextObj: nat, want: Wants, b: nat)
    requires index <= |ps| && Backward(ps) && InOrder(ps, want) && NothingWantedOvertaken(ps, index, later, want)
    requires Permutes(Moves(|ps|, index, later), |ps|) && 1 <= b <= |ps|
    ensures b in Moves(|ps|, index, later)
    ensures var m := Moves(|ps|, index, later);
      want[At(ps, b).uid] <= Before(Reordered(ps, m, nextObj), Place(m, b))
  {
    var m := Moves(|ps|, index, later);
    var qs := Reordered(ps, m, nextObj);
    forall u | u in want[At(ps, b).uid] ensures u in Before(qs, Place(m, b)) {
      assert u in Before(ps, b);
      var a: nat :| 1 <= a < b && a <= |ps| && At(ps, a).uid == u;
      PlaceOrder(|ps|, index, later, a, b);
      ReorderKeepsPhase(ps, m, nextObj, a);
      assert At(qs, Place(m, a)).uid == u;
    }
  }

  lemma {:induction false} NotBefore(ps: seq<Phase>, m: seq<nat>, nextObj: nat, a: nat, b: nat)
    requires Permutes(m, |ps|) && Ranged(ps) && Distinct(ps, nextObj)
    requires 1 <= a <= |ps| && 1 <= b <= |ps| && a in m && b in m && Place(m, b) < Place(m, a)
    ensures At(ps, a).uid !in Before(Reordered(ps, m, nextObj), Place(m, b))
  {
    var qs := Reordered(ps, m, nextObj);
    if At(ps, a).uid in Before(qs, Place(m, b)) {
      var e: nat :| 1 <= e < Place(m, b) && e <= |qs| && At(qs, e).uid == At(ps, a).uid;
      var x := Was(m, |ps|, e);
      ReorderKeepsPhase(ps, m, nextObj, x);
      SamePhase(ps, nextObj, x, a);
    }
  }

  // -- setting a phase aside ------------------------------------------------------------

  /** What a stuck phase is set behind others with: everything that needs it. */
  lemma {:induction false} NothingNeededIsOvertaken(ps: seq<Phase>, index: nat, nextObj: nat, want: Wants)
    requires index < |ps| && Backward(ps) && Distinct(ps, nextObj) && Faithful(ps, want) && InOrder(ps, want)
    ensures forall n: nat, d: nat :: States(ps, n, d) ==> !Overtaken(index, Needing(ps, index + 1), d, n)
    ensures NothingWantedOvertaken(ps, index, Needing(ps, index + 1), want)
  {
    var later := Needing(ps, index + 1);
    NeedingIs(ps, index + 1);
    forall n: nat, d: nat | Needs(ps, 0, n, d) ensures !Overtaken(index, later, d, n) {
      if Overtaken(index, later, d, n) {
        DependsOnStep(ps, 0, n, d, index + 1);
      }
    }
    forall n: nat, d: nat | States(ps, n, d) ensures !Overtaken(index, later, d, n) {
      assert Needs(ps, 0, n, d);
    }
    forall a: nat, b: nat | 1 <= b <= |ps| && Overtaken(index, later, a, b)
      ensures At(ps, a).uid !in want[At(ps, b).uid]
    {
      assert !Needs(ps, 0, b, a);
      if At(ps, a).uid in NamedBy(ps, b) {
        NamesIt(ps, nextObj, b, a);
      }
    }
  }

  /** Setting a stuck phase aside keeps every dependency, and every phase after what it needs. */
  lemma {:induction false} ParkKeepsOrder(ps: seq<Phase>, index: nat, nextObj: nat, want: Wants)
    requires index < |ps| && Backward(ps) && Distinct(ps, nextObj) && Faithful(ps, want) && InOrder(ps, want)
    ensures Permutes(Moves(|ps|, index, Needing(ps, index + 1)), |ps|)
    ensures Kept(ps, Reordered(ps, Moves(|ps|, index, Needing(ps, index + 1)), nextObj), index, nextObj, want)
  {
    var later := Needing(ps, index + 1);
    NothingNeededIsOvertaken(ps, index, nextObj, want);
    MoveKeeps(ps, index, later, nextObj, want);
  }

  /** What every move has to keep: the plan's dependencies, and each phase after what it needs. */
  ghost predicate Kept(ps: seq<Phase>, qs: seq<Phase>, index: nat, nextObj: nat, want: Wants)
  {
    && Backward(qs) && Distinct(qs, nextObj + |ps|) && Faithful(qs, want) && InOrder(qs, want)
    && |qs| == |ps| && (forall n: nat :: 1 <= n <= index && n <= |ps| ==> At(qs, n).uid == At(ps, n).uid)
  }

  lemma {:induction false} MoveKeeps(ps: seq<Phase>, index: nat, later: set<nat>, nextObj: nat, want: Wants)
    requires index <= |ps| && Backward(ps) && Distinct(ps, nextObj) && Faithful(ps, want) && InOrder(ps, want)
    requires forall n: nat, d: nat :: States(ps, n, d) ==> !Overtaken(index, later, d, n)
    requires NothingWantedOvertaken(ps, index, later, want)
    ensures Permutes(Moves(|ps|, index, later), |ps|)
    ensures Kept(ps, Reordered(ps, Moves(|ps|, index, later), nextObj), index, nextObj, want)
  {
    MovesPermute(|ps|, index, later);
    BackwardAfterMove(ps, index, later, nextObj);
    InOrderAfterMove(ps, index, later, nextObj, want);
    ReorderKeepsPlan(ps, Moves(|ps|, index, later), nextObj, want);
    var m := Moves(|ps|, index, later);
    forall n: nat | 1 <= n <= index && n <= |ps|
      ensures At(Reordered(ps, m, nextObj), n).uid == At(ps, n).uid
    {
      assert m[n - 1] == n;
    }
  }

  // -- setting what cannot be built here last -------------------------------------------

  function BuildableHere(p: Phase, here: set<Platform>): bool
  {
    p.platform.None? || p.platform.value in here
  }

  /** The unbuilt phases that nothing here can build. */
  function Unbuildable(ps: seq<Phase>, index: nat, here: set<Platform>): (s: set<nat>)
  {
    set n | n in UpTo(|ps|) && index < n && !BuildableHere(At(ps, n), here)
  }

  /** No phase that can be built here needs an earlier one that cannot. */
  ghost predicate PlatformsLast(ps: seq<Phase>, index: nat, here: set<Platform>, want: Wants)
    requires InOrder(ps, want)
  {
    forall a: nat, b: nat :: index < a < b <= |ps| && !BuildableHere(At(ps, a), here) && BuildableHere(At(ps, b), here)
      ==> At(ps, a).uid !in want[At(ps, b).uid]
  }

  /** Setting platform phases last keeps the order exactly when nothing that goes ahead of one needs it. */
  lemma {:induction false} UnbuildableLastKeepsOrder(ps: seq<Phase>, index: nat, here: set<Platform>, nextObj: nat, want: Wants)
    requires index <= |ps| && Backward(ps) && Distinct(ps, nextObj) && Faithful(ps, want) && InOrder(ps, want)
    ensures Permutes(Moves(|ps|, index, Unbuildable(ps, index, here)), |ps|)
    ensures Kept(ps, Reordered(ps, Moves(|ps|, index, Unbuildable(ps, index, here)), nextObj), index, nextObj, want)
      <==> PlatformsLast(ps, index, here, want)
  {
    var later := Unbuildable(ps, index, here);
    InOrderAfterMove(ps, index, later, nextObj, want);
    forall a: nat, b: nat | index < a < b <= |ps|
      ensures Overtaken(index, later, a, b) <==> !BuildableHere(At(ps, a), here) && BuildableHere(At(ps, b), here)
    {
    }
    if PlatformsLast(ps, index, here, want) {
      forall n: nat, d: nat | States(ps, n, d) ensures !Overtaken(index, later, d, n) {
        assert 1 <= d < n;
        assert At(ps, d).uid in NamedBy(ps, n);
      }
      MoveKeeps(ps, index, later, nextObj, want);
    }
  }
}
