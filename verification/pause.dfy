/**
 Pausing a development and carrying it on, over the branch it works on (`pause`, `carry_on`
 and what they call, slipwright/engine.py; slipwright/workspace/git.py).

 Commits are numbered in the order they were made; what the working tree holds, staged, is
 one value. A push may fail, the host may not be reached, and a merge may conflict.
 */
module PauseAndCarryOn {
  import opened Wrappers
  import Job

  datatype Revision = Revision(tree: string, parents: set<nat>)

  datatype Repo = Repo(commits: seq<Revision>, head: nat, work: string, known: set<nat>, remote: Option<nat>)

  /** Commit `b` has `a` behind it, or is it. */
  predicate Reaches(commits: seq<Revision>, a: nat, b: nat)
    decreases b
  {
    b < |commits| && (a == b || exists p: nat :: p < b && p in commits[b].parents && Reaches(commits, a, p))
  }

  predicate ValidRepo(r: Repo)
  {
    && r.head < |r.commits| && r.head in r.known
    && (forall c :: c in r.known ==> c < |r.commits|)
    && (r.remote.Some? ==> r.remote.value < |r.commits|)
  }

  lemma {:induction false} ReachesEarlier(commits: seq<Revision>, a: nat, b: nat)
    requires Reaches(commits, a, b)
    ensures a <= b < |commits|
    decreases b
  {
    if a != b {
      var p: nat :| p < b && p in commits[b].parents && Reaches(commits, a, p);
      ReachesEarlier(commits, a, p);
    }
  }

  lemma {:induction false} ReachesStill(commits: seq<Revision>, more: seq<Revision>, a: nat, b: nat)
    requires b < |commits|
    ensures Reaches(commits, a, b) <==> Reaches(commits + more, a, b)
    decreases b
  {
    if a != b {
      forall p: nat | p < b && p in commits[b].parents
        ensures Reaches(commits, a, p) <==> Reaches(commits + more, a, p)
      {
        ReachesStill(commits, more, a, p);
      }
    }
  }

  // -- git ------------------------------------------------------------------------------

  function TreeOf(r: Repo): string
    requires r.head < |r.commits|
  {
    r.commits[r.head].tree
  }

  /** `commit`, after everything is staged: nothing happens when there is nothing to commit. */
  function Committed(r: Repo): (s: Repo)
    requires r.head < |r.commits|
  {
    if r.work == TreeOf(r) then r
    else r.(commits := r.commits + [Revision(r.work, {r.head})], head := |r.commits|, known := r.known + {|r.commits|})
  }

  lemma {:induction false} CommittedValid(r: Repo)
    requires ValidRepo(r)
    ensures ValidRepo(Committed(r))
    ensures forall a: nat :: Reaches(Committed(r).commits, a, Committed(r).head) <==>
      Reaches(r.commits, a, r.head) || a == Committed(r).head
  {
    if r.work != TreeOf(r) {
      forall a: nat ensures Reaches(r.commits, a, r.head) <==> Reaches(Committed(r).commits, a, r.head) {
        ReachesStill(r.commits, [Revision(r.work, {r.head})], a, r.head);
      }
      assert Committed(r).commits[|r.commits|] == Revision(r.work, {r.head});
    }
  }

  /** `_have`: the commit is known here and part of this branch. */
  predicate Have(r: Repo, c: nat)
  {
    c in r.known && Reaches(r.commits, c, r.head)
  }

  // -- a paused development -------------------------------------------------------------

  /** Where it was paused, and the commit made of what was not committed, while there is one. */
  datatype Record = Record(from: Job.State, index: nat, head: nat, wip: Option<nat>)

  datatype Desk = Desk(repo: Repo, state: Job.State, index: nat, pause: Option<Record>)

  /** `_enter_pause`, and `_push_paused` when a push was asked for; `pushed` says whether the
      host took it. */
  function Paused(d: Desk, push: bool, pushed: bool): Desk
    requires d.repo.head < |d.repo.commits|
  {
    var record := Record(d.state, d.index, d.repo.head, None);
    if !push then d.(state := Job.Paused, pause := Some(record))
    else
      var r := Committed(d.repo);
      d.(state := Job.Paused,
         pause := Some(record.(wip := if d.repo.work == TreeOf(d.repo) then None else Some(r.head))),
         repo := if pushed then r.(remote := Some(r.head)) else r)
  }

  /** `_unwind_pause_commit`: only while nothing was built on it. */
  function Unwound(d: Desk): Desk
    requires d.pause.Some?
  {
    var record := d.pause.value;
    if record.wip.Some? && d.repo.head == record.wip.value
    then d.(repo := d.repo.(head := record.head), pause := Some(record.(wip := None)))
    else d
  }

  datatype Outcome =
    | RemoteMoved
    | CannotSync
    | PullConflict
    | CarriedOn(brought: bool)

  /** `_refuse_if_moved`: a host that cannot be asked is no reason to keep it paused. */
  predicate Moved(r: Repo, reached: bool)
  {
    reached && r.remote.Some? && !Have(r, r.remote.value)
  }

  /** `carry_on` without a pull. */
  function CarriedWithout(d: Desk, reached: bool): (r: (Desk, Outcome))
    requires d.pause.Some?
  {
    if Moved(d.repo, reached) then (d, RemoteMoved)
    else (Unwound(d).(state := d.pause.value.from), CarriedOn(false))
  }

  /** How `git merge` goes: the files conflict, or they come together to `tree`. */
  datatype Merge = Conflicts | Merges(tree: string)

  /** A fast-forward where it can be, a merge commit where both sides moved. */
  function Merged(r: Repo, remote: nat, tree: string): Repo
    requires remote < |r.commits|
  {
    if Reaches(r.commits, r.head, remote) then r.(head := remote, work := r.commits[remote].tree, known := r.known + {remote})
    else r.(commits := r.commits + [Revision(tree, {r.head, remote})], head := |r.commits|, work := tree,
            known := r.known + {remote, |r.commits|})
  }

  /** `carry_on` with a pull; `building` says whether phases are left to read against. */
  function CarriedWith(d: Desk, reached: bool, merge: Merge, building: bool): (r: (Desk, Outcome))
    requires d.pause.Some? && ValidRepo(d.repo)
  {
    if !reached || d.repo.remote.None? then (d, CannotSync)
    else
      var remote := d.repo.remote.value;
      var fetched := d.(repo := d.repo.(known := d.repo.known + {remote}));
      if Have(fetched.repo, remote) then (Unwound(fetched).(state := d.pause.value.from), CarriedOn(false))
      else
        var r := Committed(fetched.repo);
        match merge
        case Conflicts => (fetched.(repo := r.(head := d.repo.head)), PullConflict)
        case Merges(tree) =>
          (fetched.(repo := Merged(r, remote, tree), pause := Some(d.pause.value.(wip := None)),
                    state := if building then Job.Reconcile else d.pause.value.from), CarriedOn(true))
  }

  // -- the round trip -------------------------------------------------------------------

  ghost predicate ValidDesk(d: Desk)
  {
    ValidRepo(d.repo) && d.state != Job.Paused
  }

  /** It is where it was: the same state and phase, the same commit, the same working tree. */
  ghost predicate AsItWas(d: Desk, e: Desk)
  {
    e.state == d.state && e.index == d.index && e.repo.head == d.repo.head && e.repo.work == d.repo.work
    && d.repo.commits <= e.repo.commits && d.repo.known <= e.repo.known
  }

  /** Paused with a push the host took, and carried on without a pull while nobody else
      pushed: never refused, and it is where it was. */
  lemma {:induction false} PushedRoundTrip(d: Desk, reached: bool)
    requires ValidDesk(d)
    ensures var (e, outcome) := CarriedWithout(Paused(d, true, true), reached);
      outcome == CarriedOn(false) && AsItWas(d, e)
  {
    CommittedValid(d.repo);
    assert Have(Paused(d, true, true).repo, Committed(d.repo).head);
  }

  /** Without a push, or when the push failed, it is refused exactly when the branch on the
      host has commits this one has not; otherwise it is where it was. */
  lemma {:induction false} UnpushedRoundTrip(d: Desk, push: bool, reached: bool)
    requires ValidDesk(d)
    ensures var (e, outcome) := CarriedWithout(Paused(d, push, false), reached);
      var remote := d.repo.remote;
      if reached && remote.Some? && !(remote.value in d.repo.known && Reaches(d.repo.commits, remote.value, d.repo.head))
      then outcome == RemoteMoved && e == Paused(d, push, false)
      else outcome == CarriedOn(false) && AsItWas(d, e)
  {
    CommittedValid(d.repo);
    if d.repo.remote.Some? {
      ReachesStill(d.repo.commits, [Revision(d.repo.work, {d.repo.head})], d.repo.remote.value, d.repo.head);
    }
  }

  /** Once carried on from a pause that was pushed, a pause that is not pushed cannot be
      carried on without a pull, though nobody pushed: exactly when the first had something
      to commit, for the branch on the host then still ends in that commit. */
  lemma {:induction false} PausedAgainRefused(d: Desk)
    requires ValidDesk(d)
    ensures var e := CarriedWithout(Paused(d, true, true), true).0;
      CarriedWithout(Paused(e, false, false), true).1 == RemoteMoved <==> d.repo.work != TreeOf(d.repo)
  {
    PushedRoundTrip(d, true);
    CommittedValid(d.repo);
    var e := CarriedWithout(Paused(d, true, true), true).0;
    var wip := Committed(d.repo).head;
    if d.repo.work != TreeOf(d.repo) && Reaches(e.repo.commits, wip, e.repo.head) {
      ReachesEarlier(e.repo.commits, wip, e.repo.head);
    }
  }

  // -- pulling --------------------------------------------------------------------------

  lemma {:induction false} MergedReaches(r: Repo, remote: nat, tree: string)
    requires ValidRepo(r) && remote < |r.commits| && !Reaches(r.commits, remote, r.head)
    ensures var s := Merged(r, remote, tree);
      ValidRepo(s) && Have(s, remote) && Reaches(s.commits, r.head, s.head) && s.work == TreeOf(s)
  {
    var s := Merged(r, remote, tree);
    if !Reaches(r.commits, r.head, remote) {
      ReachesStill(r.commits, [Revision(tree, {r.head, remote})], r.head, r.head);
      ReachesStill(r.commits, [Revision(tree, {r.head, remote})], remote, remote);
      assert s.commits[s.head] == Revision(tree, {r.head, remote});
      assert Reaches(s.commits, remote, remote) && Reaches(s.commits, r.head, r.head);
    }
  }

  /** A pull that does not succeed leaves the checkout as it was; one that does has both what
      was pushed and what was here behind it, and pulling once more brings nothing. */
  lemma {:induction false} PullLosesNothing(d: Desk, reached: bool, merge: Merge, building: bool)
    requires ValidRepo(d.repo) && d.state == Job.Paused && d.pause.Some?
    ensures var (e, outcome) := CarriedWith(d, reached, merge, building);
      match outcome
      case CarriedOn(brought) =>
        brought ==>
          && ValidRepo(e.repo) && Have(e.repo, d.repo.remote.value)
          && Reaches(e.repo.commits, Committed(d.repo).head, e.repo.head)
          && (forall again: Merge :: CarriedWith(Paused(e, false, false), true, again, building).1 == CarriedOn(false))
      case _ => AsItWas(d, e) && e.pause == d.pause
  {
    if reached && d.repo.remote.Some? {
      var remote := d.repo.remote.value;
      var f := d.repo.(known := d.repo.known + {remote});
      if !Have(f, remote) && merge.Merges? {
        CommittedValid(f);
        NotYetThere(f, remote);
        MergedReaches(Committed(f), remote, merge.tree);
        SameCommit(d.repo, f);
      }
    }
  }

  /** The host's branch is part of this one already. */
  ghost predicate RemoteIsHere(r: Repo)
  {
    r.remote.Some? && Reaches(r.commits, r.remote.value, r.head)
  }

  /** What carrying on with a pull comes to, exactly: it cannot be synced without a branch on the
      host that is reached, brings nothing where that branch is part of this one, conflicts where
      the merge does, and brings something otherwise, which is read first while phases are left;
      where it brings nothing no commit is made, the working tree stays, and the pause's own commit
      is taken back. */
  lemma {:induction false} PullComesTo(d: Desk, reached: bool, merge: Merge, building: bool)
    requires ValidRepo(d.repo) && d.pause.Some?
    ensures var (e, outcome) := CarriedWith(d, reached, merge, building); var synced := reached && d.repo.remote.Some?;
      && (outcome == CannotSync <==> !synced)
      && (outcome == CarriedOn(false) <==> synced && RemoteIsHere(d.repo))
      && (outcome == PullConflict <==> synced && !RemoteIsHere(d.repo) && merge.Conflicts?)
      && (outcome == CarriedOn(true) <==> synced && !RemoteIsHere(d.repo) && merge.Merges?)
      && e.state == (if !outcome.CarriedOn? then d.state else if outcome.brought && building then Job.Reconcile else d.pause.value.from)
      && e.index == d.index && (outcome == CarriedOn(true) ==> e.pause.value.wip.None?)
      && (outcome == CarriedOn(false) ==>
            && e.repo.work == d.repo.work && e.repo.commits == d.repo.commits
            && e.repo.head == if d.pause.value.wip == Some(d.repo.head) then d.pause.value.head else d.repo.head)
  {
  }

  lemma {:induction false} NotYetThere(r: Repo, remote: nat)
    requires ValidRepo(r) && remote < |r.commits| && !Reaches(r.commits, remote, r.head)
    ensures !Reaches(Committed(r).commits, remote, Committed(r).head) && remote < |Committed(r).commits|
  {
    CommittedValid(r);
  }

  lemma {:induction false} SameCommit(r: Repo, f: Repo)
    requires r.head < |r.commits| && f == r.(known := f.known)
    ensures Committed(f).head == Committed(r).head && Committed(f).commits == Committed(r).commits
  {
  }

  /** A pull after a pushed pause brings back the very commit that was taken out of the
      branch, as if somebody had pushed it. */
  lemma {:induction false} PullBringsItBack(d: Desk, merge: Merge, building: bool)
    requires ValidDesk(d)
    ensures var e := CarriedWithout(Paused(d, true, true), true).0;
      ValidRepo(e.repo) && (CarriedWith(Paused(e, false, false), true, merge, building).1 == CarriedOn(false) <==> d.repo.work == TreeOf(d.repo))
  {
    PushedRoundTrip(d, true);
    PausedAgainRefused(d);
    CommittedValid(d.repo);
  }

  // -- nothing is lost --------------------------------------------------------------------

  /** The pause's own commit, while there is one, is made on what it was paused at. */
  ghost predicate PauseKept(d: Desk)
  {
    && ValidRepo(d.repo)
    && (d.pause.Some? ==>
          var record := d.pause.value;
          && record.head in d.repo.known
          && (record.wip.Some? ==>
                record.head < record.wip.value < |d.repo.commits| && d.repo.commits[record.wip.value].parents == {record.head}))
  }

  /** What the branch had behind it, it has, and the working tree is the same. */
  ghost predicate NothingLost(r: Repo, s: Repo)
  {
    s.work == r.work && forall a: nat :: Reaches(r.commits, a, r.head) ==> Reaches(s.commits, a, s.head)
  }

  /** A pause loses nothing, pushed or not, and what is pushed is all there was. */
  lemma {:induction false} PausedKeeps(d: Desk, push: bool, pushed: bool)
    requires ValidRepo(d.repo)
    ensures var e := Paused(d, push, pushed);
      && PauseKept(e) && NothingLost(d.repo, e.repo) && e.state == Job.Paused && e.index == d.index
      && e.pause.Some? && e.pause.value == Record(d.state, d.index, d.repo.head, e.pause.value.wip)
      && (push ==> TreeOf(e.repo) == d.repo.work)
      && (push && pushed ==> e.repo.remote == Some(e.repo.head))
      && (!push ==> e.repo == d.repo)
  {
    CommittedValid(d.repo);
  }

  /** Its commit is taken back only while nothing was built on it, and nothing but it goes. */
  lemma {:induction false} UnwoundKeeps(d: Desk)
    requires PauseKept(d) && d.pause.Some?
    ensures var e := Unwound(d); var wip := d.pause.value.wip;
      && PauseKept(e) && e.repo.work == d.repo.work && e.repo.commits == d.repo.commits
      && (forall a: nat :: Reaches(d.repo.commits, a, d.repo.head) && Some(a) != wip ==> Reaches(e.repo.commits, a, e.repo.head))
      && (e.repo.head != d.repo.head ==> wip == Some(d.repo.head) && e.repo.head == d.pause.value.head)
  {
    var record := d.pause.value;
    if record.wip.Some? && d.repo.head == record.wip.value {
      forall a: nat | Reaches(d.repo.commits, a, d.repo.head) && a != d.repo.head ensures Reaches(d.repo.commits, a, record.head) {
        var p: nat :| p < d.repo.head && p in d.repo.commits[d.repo.head].parents && Reaches(d.repo.commits, a, p);
      }
    }
  }

  /** However it is carried on, or refused to be, the checkout stays in order. */
  lemma {:induction false} CarriedKeeps(d: Desk, pull: bool, reached: bool, merge: Merge, building: bool)
    requires PauseKept(d) && d.pause.Some?
    ensures PauseKept(if pull then CarriedWith(d, reached, merge, building).0 else CarriedWithout(d, reached).0)
  {
    UnwoundKeeps(d);
    if pull && reached && d.repo.remote.Some? {
      var remote := d.repo.remote.value;
      var fetched := d.(repo := d.repo.(known := d.repo.known + {remote}));
      UnwoundKeeps(fetched);
      if !Have(fetched.repo, remote) {
        CommittedValid(fetched.repo);
        if merge.Merges? {
          NotYetThere(fetched.repo, remote);
          MergedReaches(Committed(fetched.repo), remote, merge.tree);
        }
      }
    }
  }

  // -- the methods ----------------------------------------------------------------------

  /** A development's checkout, and where it was paused. */
  class Workspace {
    var repo: Repo
    var state: Job.State
    var index: nat
    var pause: Option<Record>

    ghost function View(): Desk
      reads this
    {
      Desk(repo, state, index, pause)
    }

    ghost predicate Valid()
      reads this
    {
      PauseKept(View())
    }

    constructor (repo: Repo, state: Job.State, index: nat)
      requires ValidRepo(repo)
      ensures Valid() && View() == Desk(repo, state, index, None)
    {
      this.repo, this.state, this.index, pause := repo, state, index, None;
    }

    /** `stage_all` and `commit`. */
    method Commit() returns (made: bool)
      requires repo.head < |repo.commits|
      modifies this`repo
      ensures made <==> old(repo).work != TreeOf(old(repo))
      ensures repo == Committed(old(repo))
    {
      if repo.work == repo.commits[repo.head].tree {
        return false;
      }
      var id := |repo.commits|;
      repo := repo.(commits := repo.commits + [Revision(repo.work, {repo.head})]);
      repo := repo.(head := id, known := repo.known + {id});
      return true;
    }

    /** `reset_soft`: the branch goes back, and what came after stays staged. */
    method ResetSoft(commit: nat)
      modifies this`repo
      ensures repo == old(repo).(head := commit)
    {
      repo := repo.(head := commit);
    }

    /** `_enter_pause` and `_push_paused`. */
    method EnterPause(push: bool, pushed: bool)
      requires Valid()
      modifies this
      ensures Valid() && View() == Paused(old(View()), push, pushed) && NothingLost(old(repo), repo)
    {
      PausedKeeps(View(), push, pushed);
      pause := Some(Record(state, index, repo.head, None));
      state := Job.Paused;
      if push {
        var made := Commit();
        if made {
          pause := Some(pause.value.(wip := Some(repo.head)));
        }
        if pushed {
          repo := repo.(remote := Some(repo.head));
        }
      }
    }

    /** `_unwind_pause_commit`. */
    method UnwindPauseCommit()
      requires Valid() && pause.Some?
      modifies this`repo, this`pause
      ensures Valid() && View() == Unwound(old(View())) && repo.work == old(repo).work
    {
      UnwoundKeeps(View());
      var record := pause.value;
      if record.wip.None? || repo.head != record.wip.value {
        return;
      }
      ResetSoft(record.head);
      pause := Some(record.(wip := None));
    }

    /** `_pull_paused`: what was pushed, merged in; a conflict leaves the checkout as it was. */
    method PullPaused(reached: bool, merge: Merge) returns (outcome: Outcome)
      requires Valid() && pause.Some?
      modifies this`repo, this`pause
      ensures outcome == CarriedOn(false) ==> Valid()
      ensures outcome == CarriedWith(old(View()), reached, merge, true).1
      ensures outcome == CarriedOn(false) ==> View() == old(View()).(repo := old(repo).(known := old(repo).known + {old(repo).remote.value}))
      ensures outcome != CarriedOn(false) ==> View() == CarriedWith(old(View()), reached, merge, true).0.(state := old(state))
    {
      if !reached || repo.remote.None? {
        return CannotSync;
      }
      var remote, before := repo.remote.value, repo.head;
      repo := repo.(known := repo.known + {remote});
      if Have(repo, remote) {
        return CarriedOn(false);
      }
      var committed := Commit();
      match merge
      case Conflicts =>
        if committed {
          ResetSoft(before);
        }
        return PullConflict;
      case Merges(tree) =>
        repo := Merged(repo, remote, tree);
        pause := Some(pause.value.(wip := None));
        return CarriedOn(true);
    }

    /** `carry_on`. */
    method CarryOn(pull: bool, reached: bool, merge: Merge, building: bool) returns (outcome: Outcome)
      requires Valid() && pause.Some?
      modifies this
      ensures Valid()
      ensures (View(), outcome) == if pull then CarriedWith(old(View()), reached, merge, building) else CarriedWithout(old(View()), reached)
    {
      CarriedKeeps(View(), pull, reached, merge, building);
      if pull {
        outcome := PullPaused(reached, merge);
        if !outcome.CarriedOn? {
          return;
        }
      } else if Moved(repo, reached) {
        return RemoteMoved;
      } else {
        outcome := CarriedOn(false);
      }
      if !outcome.brought {
        UnwindPauseCommit();
      }
      state := if outcome.brought && building then Job.Reconcile else pause.value.from;
    }
  }
}
