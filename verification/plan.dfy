/**
 The plan of a development: numbered phases, what each one needs, and the check a plan
 passes before it can be built from (slipwright/roles/architect.py).

 A phase's number is where it stands, counted from 1. `uid` names the phase itself and
 never changes; `obj` is the identity of the record that holds it, which changes whenever
 the record is rebuilt; `needs` is the phase's `depends_on`, where None means every
 earlier phase; `files` are its file names after clean-up, in the order they are listed.
 */
module Plan {
  import opened Wrappers

  datatype Platform = Ios | Android

  datatype Phase = Phase(
    uid: nat,
    obj: nat,
    needs: Option<set<nat>>,
    platform: Option<Platform>,
    files: seq<string>)

  /** The phase numbered `n`. */
  function At(ps: seq<Phase>, n: nat): Phase
    requires 1 <= n <= |ps|
  {
    ps[n - 1]
  }

  /** Phase `n` says that it needs `d`. */
  ghost predicate States(ps: seq<Phase>, n: nat, d: nat)
  {
    1 <= n <= |ps| && At(ps, n).needs.Some? && d in At(ps, n).needs.value
  }

  /** Phase `n` needs phase `d`, the first `built` phases being built already. */
  ghost predicate Needs(ps: seq<Phase>, built: nat, n: nat, d: nat)
  {
    && 1 <= n <= |ps|
    && if At(ps, n).needs.None? || n <= built then 1 <= d < n else States(ps, n, d) || 1 <= d <= built
  }

  /** What a phase says it needs stands before it, from the first unbuilt phase up to `m`. */
  ghost predicate BackwardUpTo(ps: seq<Phase>, built: nat, m: nat)
  {
    forall n: nat, d: nat :: built < n <= m && States(ps, n, d) ==> 1 <= d < n
  }

  ghost predicate BackwardFrom(ps: seq<Phase>, built: nat)
  {
    BackwardUpTo(ps, built, |ps|)
  }

  ghost predicate Backward(ps: seq<Phase>)
  {
    BackwardFrom(ps, 0)
  }

  /** What the phases say they need are phases of the plan. */
  ghost predicate Ranged(ps: seq<Phase>)
  {
    forall n: nat, d: nat :: States(ps, n, d) ==> 1 <= d <= |ps|
  }

  /** A chain of needs, first to last. */
  ghost predicate Chain(ps: seq<Phase>, built: nat, c: seq<nat>)
  {
    && 0 < |c|
    && (forall i :: 0 <= i < |c| ==> 1 <= c[i] <= |ps|)
    && (forall i, j :: 0 <= i < j < |c| && j == i + 1 ==> Needs(ps, built, c[j], c[i]))
  }

  ghost predicate Links(ps: seq<Phase>, built: nat, c: seq<nat>, k: nat, n: nat)
  {
    Chain(ps, built, c) && c[0] == k && c[|c| - 1] == n
  }

  /** `n` is `k`, or needs it directly or through others. */
  ghost predicate DependsOn(ps: seq<Phase>, built: nat, n: nat, k: nat)
  {
    exists c :: Links(ps, built, c, k, n)
  }

  lemma {:induction false} DependsOnSelf(ps: seq<Phase>, built: nat, n: nat)
    requires 1 <= n <= |ps|
    ensures DependsOn(ps, built, n, n)
  {
    assert Links(ps, built, [n], n, n);
  }

  lemma {:induction false} DependsOnStep(ps: seq<Phase>, built: nat, n: nat, d: nat, k: nat)
    requires Needs(ps, built, n, d) && DependsOn(ps, built, d, k)
    ensures DependsOn(ps, built, n, k)
  {
    var c :| Links(ps, built, c, k, d);
    var e := c + [n];
    assert forall i :: 0 <= i < |c| ==> e[i] == c[i];
    assert Links(ps, built, e, k, n);
  }

  /** The last step of a dependency that is not the phase itself. */
  lemma {:induction false} DependsOnLast(ps: seq<Phase>, built: nat, n: nat, k: nat) returns (d: nat)
    requires DependsOn(ps, built, n, k) && n != k
    ensures Needs(ps, built, n, d) && DependsOn(ps, built, d, k)
  {
    var c :| Links(ps, built, c, k, n);
    d := c[|c| - 2];
    var e := c[..|c| - 1];
    assert forall i :: 0 <= i < |e| ==> e[i] == c[i];
    assert Links(ps, built, e, k, d);
  }

  lemma {:induction false} DependsOnEarlier(ps: seq<Phase>, built: nat, n: nat, k: nat)
    requires BackwardFrom(ps, built) && DependsOn(ps, built, n, k)
    ensures 1 <= k <= n <= |ps|
    decreases n
  {
    if n != k {
      var d := DependsOnLast(ps, built, n, k);
      DependsOnEarlier(ps, built, d, k);
    } else {
      var c :| Links(ps, built, c, k, n);
    }
  }

  lemma {:induction false} DependsOnTransitive(ps: seq<Phase>, built: nat, n: nat, m: nat, k: nat)
    requires BackwardFrom(ps, built) && DependsOn(ps, built, n, m) && DependsOn(ps, built, m, k)
    ensures DependsOn(ps, built, n, k)
    decreases n
  {
    if n != m {
      var d := DependsOnLast(ps, built, n, m);
      DependsOnEarlier(ps, built, d, m);
      DependsOnTransitive(ps, built, d, m, k);
      DependsOnStep(ps, built, n, d, k);
    }
  }

  /** Everything `n` needs, directly or through others. */
  ghost function Ancestors(ps: seq<Phase>, built: nat, n: nat): (s: set<nat>)
  {
    set k | 1 <= k < n && DependsOn(ps, built, n, k)
  }

  /** Everything that needs `k`, with `k` itself. */
  ghost function Dependents(ps: seq<Phase>, k: nat): (s: set<nat>)
  {
    set n | k <= n <= |ps| && DependsOn(ps, 0, n, k)
  }

  // -- what has to wait for a phase ---------------------------------------------------------

  /** A phase has to wait while those numbered `s` do. */
  predicate WaitsFor(p: Phase, s: set<nat>)
  {
    p.needs.None? || s * p.needs.value != {}
  }

  /** One look at each of the phases behind `k` up to `n`, in order. */
  function Pass(ps: seq<Phase>, k: nat, n: nat): (s: set<nat>)
    requires 1 <= k <= |ps| && n <= |ps|
    decreases n
  {
    if n <= k then {k}
    else
      var s := Pass(ps, k, n - 1);
      if WaitsFor(At(ps, n), s) then s + {n} else s
  }

  /** What has to wait for phase `k`, found in one forward pass. */
  function Needing(ps: seq<Phase>, k: nat): (s: set<nat>)
    requires 1 <= k <= |ps|
  {
    Pass(ps, k, |ps|)
  }

  lemma {:induction false} PassHas(ps: seq<Phase>, k: nat, n: nat)
    requires 1 <= k <= n <= |ps|
    ensures var s := Pass(ps, k, n);
      && k in s && (forall x :: x in s ==> k <= x <= n)
      && (forall x: nat :: k < x <= n && At(ps, x).needs.None? ==> x in s)
  {
    if k < n {
      PassHas(ps, k, n - 1);
    }
  }

  /** The pass looks at a phase once, so what it found of one it finds to the end. */
  lemma {:induction false} PassStays(ps: seq<Phase>, k: nat, n: nat, m: nat)
    requires 1 <= k <= n <= m <= |ps|
    ensures forall x :: x in Pass(ps, k, m) && x <= n <==> x in Pass(ps, k, n)
    decreases m
  {
    PassHas(ps, k, n);
    if n < m {
      PassStays(ps, k, n, m - 1);
    }
  }

  /** A phase that names its needs has to wait exactly when one it names and that stands before it does. */
  lemma {:induction false} NamerWaits(ps: seq<Phase>, k: nat, n: nat)
    requires 1 <= k < n <= |ps| && At(ps, n).needs.Some?
    ensures n in Needing(ps, k) <==> exists d: nat :: d < n && States(ps, n, d) && d in Needing(ps, k)
  {
    PassStays(ps, k, n, |ps|);
    PassStays(ps, k, n - 1, |ps|);
    PassHas(ps, k, n - 1);
    if n in Needing(ps, k) {
      var d :| d in Pass(ps, k, n - 1) * At(ps, n).needs.value;
      assert States(ps, n, d);
    }
    if d: nat :| d < n && States(ps, n, d) && d in Needing(ps, k) {
      assert d in Pass(ps, k, n - 1) * At(ps, n).needs.value;
    }
  }

  lemma {:induction false} NeedingHas(ps: seq<Phase>, k: nat)
    requires 1 <= k <= |ps|
    ensures k in Needing(ps, k)
    ensures forall x :: x in Needing(ps, k) ==> k <= x <= |ps|
    ensures forall x: nat :: k < x <= |ps| && At(ps, x).needs.None? ==> x in Needing(ps, k)
  {
    PassHas(ps, k, |ps|);
  }

  lemma {:induction false} PassStep(ps: seq<Phase>, k: nat, n: nat, s: set<nat>)
    requires Backward(ps) && 1 <= k < n <= |ps|
    requires forall d: nat :: d in s <==> d < n && d in Dependents(ps, k)
    ensures n in Dependents(ps, k) <==> WaitsFor(At(ps, n), s)
  {
    DependsOnSelf(ps, 0, k);
    if At(ps, n).needs.None? {
      assert Needs(ps, 0, n, k);
      DependsOnStep(ps, 0, n, k, k);
    } else if n in Dependents(ps, k) {
      var d := DependsOnLast(ps, 0, n, k);
      assert States(ps, n, d);
      DependsOnEarlier(ps, 0, d, k);
      assert d in s * At(ps, n).needs.value;
    } else if s * At(ps, n).needs.value != {} {
      var d :| d in s * At(ps, n).needs.value;
      assert States(ps, n, d);
      DependsOnStep(ps, 0, n, d, k);
    }
  }

  lemma {:induction false} PassIs(ps: seq<Phase>, k: nat, n: nat)
    requires Backward(ps) && 1 <= k <= n <= |ps|
    ensures forall d: nat :: d in Pass(ps, k, n) <==> d <= n && d in Dependents(ps, k)
  {
    DependsOnSelf(ps, 0, k);
    if k < n {
      PassIs(ps, k, n - 1);
      PassStep(ps, k, n, Pass(ps, k, n - 1));
    }
  }

  /** While every edge points back, the pass finds exactly what depends on the phase. */
  lemma {:induction false} NeedingIs(ps: seq<Phase>, k: nat)
    requires Backward(ps) && 1 <= k <= |ps|
    ensures Needing(ps, k) == Dependents(ps, k)
  {
    PassIs(ps, k, |ps|);
  }

  // -- the check ------------------------------------------------------------------------

  /** Why a plan cannot be built from. */
  datatype Problem =
    | NotEarlier(phase: nat, needed: nat)
    | SharedFile(first: nat, second: nat, file: string)

  ghost predicate Lists(ps: seq<Phase>, n: nat, f: string)
  {
    1 <= n <= |ps| && f in At(ps, n).files
  }

  ghost predicate Once<T>(s: seq<T>)
  {
    forall i, j :: 0 <= i < j < |s| ==> s[i] != s[j]
  }

  /** The first `m` phases name no file twice. */
  ghost predicate FilesOnce(ps: seq<Phase>, m: nat)
  {
    forall n :: 1 <= n <= m <= |ps| ==> Once(At(ps, n).files)
  }

  /** Of two of the first `m` phases that change one file, the later needs the earlier. */
  ghost predicate FilesOrdered(ps: seq<Phase>, built: nat, m: nat)
  {
    forall a: nat, b: nat, f :: a < b <= m && Lists(ps, a, f) && Lists(ps, b, f) ==> DependsOn(ps, built, b, a)
  }

  /** What a plan has to be for the development to be built from it. */
  ghost predicate Sound(ps: seq<Phase>, built: nat)
  {
    BackwardFrom(ps, built) && FilesOnce(ps, |ps|) && FilesOrdered(ps, built, |ps|)
  }

  /** The problem that was found is really there. */
  ghost predicate Shows(ps: seq<Phase>, built: nat, p: Problem)
  {
    match p
    case NotEarlier(n, d) => built < n && States(ps, n, d) && !(1 <= d < n)
    case SharedFile(a, b, f) =>
      && a <= b && Lists(ps, a, f) && Lists(ps, b, f)
      && (if a < b then !DependsOn(ps, built, b, a) else !Once(At(ps, a).files))
  }

  lemma {:induction false} AncestorsUnfold(ps: seq<Phase>, built: nat, n: nat, direct: set<nat>)
    requires BackwardFrom(ps, built) && 1 <= n <= |ps|
    requires forall d: nat :: d in direct <==> Needs(ps, built, n, d) && 1 <= d < n
    ensures forall k :: k in Ancestors(ps, built, n) <==> k in direct || exists d :: d in direct && k in Ancestors(ps, built, d)
  {
    forall k | k in Ancestors(ps, built, n)
      ensures k in direct || exists d :: d in direct && k in Ancestors(ps, built, d)
    {
      var d := DependsOnLast(ps, built, n, k);
      DependsOnEarlier(ps, built, d, k);
      assert d in direct;
      if k != d {
        assert k in Ancestors(ps, built, d);
      }
    }
    forall k | k in direct ensures k in Ancestors(ps, built, n) {
      DependsOnSelf(ps, built, k);
      DependsOnStep(ps, built, n, k, k);
    }
    forall k, d | d in direct && k in Ancestors(ps, built, d) ensures k in Ancestors(ps, built, n) {
      DependsOnStep(ps, built, n, d, k);
    }
  }

  /** The numbers from 1 to `n`. */
  function UpTo(n: nat): (s: set<nat>)
    ensures forall k :: k in s <==> 1 <= k <= n
  {
    if n == 0 then {} else UpTo(n - 1) + {n}
  }

  function Closure(closures: seq<set<nat>>, n: nat): set<nat>
  {
    if 1 <= n <= |closures| then closures[n - 1] else {}
  }

  /** What each phase needs, through what those need: one pass over the phases in order. */
  method Closures(ps: seq<Phase>, built: nat) returns (problem: Option<Problem>, closures: seq<set<nat>>)
    ensures problem.None? <==> BackwardFrom(ps, built)
    ensures problem.Some? ==> problem.value.NotEarlier? && Shows(ps, built, problem.value)
    ensures problem.None? ==> |closures| == |ps| && forall n :: 1 <= n <= |ps| ==> Closure(closures, n) == Ancestors(ps, built, n)
  {
    closures := [];
    for number := 1 to |ps| + 1
      invariant |closures| == number - 1
      invariant BackwardUpTo(ps, built, number - 1)
      invariant BackwardFrom(ps, built) ==>
        forall n :: 1 <= n < number ==> Closure(closures, n) == Ancestors(ps, built, n)
    {
      var phase := At(ps, number);
      var direct := UpTo(number - 1);
      if phase.needs.Some? && built < number {
        direct := phase.needs.value;
        var ahead := set d | d in direct && !(1 <= d < number);
        if ahead != {} {
          var first :| first in ahead;
          assert States(ps, number, first);
          return Some(NotEarlier(number, first)), closures;
        }
        assert forall d :: d in direct <==> States(ps, number, d);
        assert forall d :: d in direct ==> d !in ahead;
      }
      OneMoreBackward(ps, built, number);
      var closure := direct + UpTo(if built < number - 1 then built else number - 1);
      closure := Widen(closure, direct, closures);
      if BackwardFrom(ps, built) {
        ClosureIsAncestors(ps, built, number, direct, closure, closures);
      }
      ghost var before := closures;
      closures := closures + [closure];
      assert forall n :: 1 <= n < number ==> Closure(closures, n) == Closure(before, n);
    }
    problem := None;
  }

  lemma {:induction false} OneMoreBackward(ps: seq<Phase>, built: nat, number: nat)
    requires 1 <= number <= |ps| && BackwardUpTo(ps, built, number - 1)
    requires built < number ==> forall d: nat :: States(ps, number, d) ==> 1 <= d < number
    ensures BackwardUpTo(ps, built, number)
  {
  }

  /** The closures of `direct` added to `start`. */
  method Widen(start: set<nat>, direct: set<nat>, closures: seq<set<nat>>) returns (closure: set<nat>)
    ensures forall k :: k in closure <==> k in start || exists d :: d in direct && k in Closure(closures, d)
  {
    closure := start;
    var todo := direct;
    while todo != {}
      invariant todo <= direct
      invariant forall k :: k in closure <==> k in start || exists d :: d in direct - todo && k in Closure(closures, d)
      decreases todo
    {
      var d :| d in todo;
      closure := closure + Closure(closures, d);
      ghost var rest := todo - {d};
      assert forall e :: e in direct - rest <==> e == d || e in direct - todo;
      todo := todo - {d};
    }
  }

  /** The built phases are added whole, so what those need adds nothing more. */
  lemma {:induction false} ClosureIsAncestors(ps: seq<Phase>, built: nat, n: nat, direct: set<nat>, closure: set<nat>, closures: seq<set<nat>>)
    requires BackwardFrom(ps, built) && 1 <= n <= |ps| && |closures| == n - 1
    requires forall m :: 1 <= m < n ==> Closure(closures, m) == Ancestors(ps, built, m)
    requires direct == if At(ps, n).needs.Some? && built < n then At(ps, n).needs.value else UpTo(n - 1)
    requires var start := direct + UpTo(if built < n - 1 then built else n - 1);
      forall k :: k in closure <==> k in start || exists d :: d in direct && k in Closure(closures, d)
    ensures closure == Ancestors(ps, built, n)
  {
    var start := direct + UpTo(if built < n - 1 then built else n - 1);
    assert forall d :: d in direct && At(ps, n).needs.Some? && built < n ==> States(ps, n, d);
    AncestorsUnfold(ps, built, n, start);
    forall k ensures k in closure <==> k in Ancestors(ps, built, n) {
      if k in Ancestors(ps, built, n) && k !in start {
        var d :| d in start && k in Ancestors(ps, built, d);
        assert d in direct;
        assert k in Closure(closures, d);
      }
      if k in closure && k !in start {
        var d :| d in direct && k in Closure(closures, d);
        assert k in Ancestors(ps, built, d);
      }
    }
  }

  /** Who listed `f` last, among the first `n` phases and the first `i` files of the next. */
  ghost predicate LastOwner(ps: seq<Phase>, n: nat, i: nat, owner: map<string, nat>)
    requires n < |ps| && i <= |At(ps, n + 1).files|
  {
    && (forall f :: f in owner ==> Lists(ps, owner[f], f) && (owner[f] <= n || (owner[f] == n + 1 && f in At(ps, n + 1).files[..i])))
    && (forall f :: f in At(ps, n + 1).files[..i] ==> f in owner && owner[f] == n + 1)
    && (forall m: nat, f :: m <= n && Lists(ps, m, f) ==> f in owner && m <= owner[f])
  }

  /** `dependency_problem`: refuses exactly the plans that are not sound, and says why. */
  method DependencyProblem(ps: seq<Phase>, built: nat) returns (problem: Option<Problem>)
    ensures problem.None? <==> Sound(ps, built)
    ensures problem.Some? ==> Shows(ps, built, problem.value)
  {
    var closures;
    problem, closures := Closures(ps, built);
    if problem.Some? {
      return;
    }
    var owner: map<string, nat> := map[];
    for number := 1 to |ps| + 1
      invariant problem.None? && FilesOnce(ps, number - 1) && FilesOrdered(ps, built, number - 1)
      invariant number <= |ps| ==> LastOwner(ps, number - 1, 0, owner)
    {
      problem, owner := CheckFiles(ps, built, number, Closure(closures, number), owner);
      if problem.Some? {
        return;
      }
    }
  }

  /** How far the files of phase `n` are looked at, with nothing wrong so far. */
  ghost predicate CheckedUpTo(ps: seq<Phase>, built: nat, n: nat, i: nat, owner: map<string, nat>)
    requires 1 <= n <= |ps| && i <= |At(ps, n).files|
  {
    LastOwner(ps, n - 1, i, owner) && Once(At(ps, n).files[..i]) && OrderedUpTo(ps, built, n, i)
  }

  method CheckFiles(ps: seq<Phase>, built: nat, number: nat, closure: set<nat>, before: map<string, nat>)
      returns (problem: Option<Problem>, owner: map<string, nat>)
    requires 1 <= number <= |ps| && BackwardFrom(ps, built) && closure == Ancestors(ps, built, number)
    requires FilesOnce(ps, number - 1) && FilesOrdered(ps, built, number - 1)
    requires LastOwner(ps, number - 1, 0, before)
    ensures problem.Some? ==> !Sound(ps, built) && Shows(ps, built, problem.value)
    ensures problem.None? ==> FilesOnce(ps, number) && FilesOrdered(ps, built, number)
    ensures problem.None? && number < |ps| ==> LastOwner(ps, number, 0, owner)
  {
    owner := before;
    problem := None;
    for i := 0 to |At(ps, number).files|
      invariant problem.None? && CheckedUpTo(ps, built, number, i, owner)
    {
      problem, owner := CheckFile(ps, built, number, i, closure, owner);
      if problem.Some? {
        return;
      }
    }
    FilesDone(ps, built, number, owner);
  }

  /** One file of phase `n`, its `i`-th. */
  method CheckFile(ps: seq<Phase>, built: nat, n: nat, i: nat, closure: set<nat>, before: map<string, nat>)
      returns (problem: Option<Problem>, owner: map<string, nat>)
    requires 1 <= n <= |ps| && i < |At(ps, n).files| && BackwardFrom(ps, built) && closure == Ancestors(ps, built, n)
    requires FilesOrdered(ps, built, n - 1) && CheckedUpTo(ps, built, n, i, before)
    ensures problem.Some? ==> !Sound(ps, built) && Shows(ps, built, problem.value)
    ensures problem.None? ==> CheckedUpTo(ps, built, n, i + 1, owner)
  {
    var f := At(ps, n).files[i];
    if f in before && before[f] !in closure {
      SharedIsShown(ps, built, n, i, before);
      return Some(SharedFile(before[f], n, f)), before;
    }
    NextIsOrdered(ps, built, n, i, before);
    OwnerExtends(ps, n - 1, i, before);
    return None, before[f := n];
  }

  /** Whatever lists one of the first `i` files of phase `n` before it, that phase depends on. */
  ghost predicate OrderedUpTo(ps: seq<Phase>, built: nat, n: nat, i: nat)
    requires 1 <= n <= |ps| && i <= |At(ps, n).files|
  {
    forall a: nat, f :: a < n && Lists(ps, a, f) && f in At(ps, n).files[..i] ==> DependsOn(ps, built, n, a)
  }

  lemma {:induction false} NextIsOrdered(ps: seq<Phase>, built: nat, n: nat, i: nat, owner: map<string, nat>)
    requires 1 <= n <= |ps| && i < |At(ps, n).files| && BackwardFrom(ps, built) && FilesOrdered(ps, built, n - 1)
    requires CheckedUpTo(ps, built, n, i, owner)
    requires At(ps, n).files[i] in owner ==> owner[At(ps, n).files[i]] in Ancestors(ps, built, n)
    ensures Once(At(ps, n).files[..i + 1]) && OrderedUpTo(ps, built, n, i + 1)
  {
    var files := At(ps, n).files;
    ListedIsOrdered(ps, built, n, i, owner);
    assert files[..i + 1] == files[..i] + [files[i]];
    assert forall k :: 0 <= k < i ==> files[..i][k] == files[k];
  }

  lemma {:induction false} OwnerExtends(ps: seq<Phase>, n: nat, i: nat, owner: map<string, nat>)
    requires n < |ps| && i < |At(ps, n + 1).files| && LastOwner(ps, n, i, owner)
    ensures LastOwner(ps, n, i + 1, owner[At(ps, n + 1).files[i] := n + 1])
  {
    var files := At(ps, n + 1).files;
    assert files[..i + 1] == files[..i] + [files[i]];
  }

  lemma {:induction false} FilesDone(ps: seq<Phase>, built: nat, n: nat, owner: map<string, nat>)
    requires 1 <= n <= |ps| && FilesOnce(ps, n - 1) && FilesOrdered(ps, built, n - 1)
    requires CheckedUpTo(ps, built, n, |At(ps, n).files|, owner)
    ensures FilesOnce(ps, n) && FilesOrdered(ps, built, n)
    ensures n < |ps| ==> LastOwner(ps, n, 0, owner)
  {
    var files := At(ps, n).files;
    assert files[..|files|] == files;
    forall a: nat, b: nat, f | a < b <= n && Lists(ps, a, f) && Lists(ps, b, f) ensures DependsOn(ps, built, b, a) {
      if b == n {
        assert f in files[..|files|];
      }
    }
  }

  lemma {:induction false} ListedIsOrdered(ps: seq<Phase>, built: nat, n: nat, i: nat, owner: map<string, nat>)
    requires 1 <= n <= |ps| && i < |At(ps, n).files|
    requires BackwardFrom(ps, built) && FilesOrdered(ps, built, n - 1)
    requires LastOwner(ps, n - 1, i, owner)
    requires var f := At(ps, n).files[i]; f in owner ==> owner[f] in Ancestors(ps, built, n)
    ensures At(ps, n).files[i] !in At(ps, n).files[..i]
    ensures forall a: nat :: a < n && Lists(ps, a, At(ps, n).files[i]) ==> DependsOn(ps, built, n, a)
  {
    var f := At(ps, n).files[i];
    forall a: nat | a < n && Lists(ps, a, f) ensures DependsOn(ps, built, n, a) {
      DependsOnOwner(ps, built, n, a, owner[f], f);
    }
  }

  lemma {:induction false} DependsOnOwner(ps: seq<Phase>, built: nat, n: nat, a: nat, owner: nat, f: string)
    requires 1 <= n && BackwardFrom(ps, built) && FilesOrdered(ps, built, n - 1)
    requires a <= owner && Lists(ps, a, f) && Lists(ps, owner, f)
    requires owner in Ancestors(ps, built, n)
    ensures DependsOn(ps, built, n, a)
  {
    if a < owner {
      DependsOnTransitive(ps, built, n, owner, a);
    }
  }

  lemma {:induction false} SharedIsShown(ps: seq<Phase>, built: nat, n: nat, i: nat, owner: map<string, nat>)
    requires BackwardFrom(ps, built) && 1 <= n <= |ps| && i < |At(ps, n).files|
    requires LastOwner(ps, n - 1, i, owner)
    requires var f := At(ps, n).files[i]; f in owner && owner[f] !in Ancestors(ps, built, n)
    ensures var f := At(ps, n).files[i]; Shows(ps, built, SharedFile(owner[f], n, f)) && !Sound(ps, built)
  {
    var files := At(ps, n).files;
    var f := files[i];
    if owner[f] == n {
      var j :| 0 <= j < i && files[..i][j] == f;
      assert files[j] == files[i];
      assert !Once(files);
    } else {
      assert owner[f] < n && Lists(ps, owner[f], f) && Lists(ps, n, f);
    }
  }
}
