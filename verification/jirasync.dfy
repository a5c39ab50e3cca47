/**
 The Jira mirror of a development's breakdown (slipwright/jirasync.py): one pass creates the
 issues that are missing, moves each to the status its item has, and posts the comments that
 were not posted yet. Any remote call may fail, before Jira did what it was asked or after.

 An issue's key is the place of its creation in the log of what Jira did.
 */
module JiraSync {
  import opened Wrappers

  datatype Status = Todo | InProgress | Done | Failed

  /** An epic, a story or a task of the breakdown, with the epic or story it is part of. */
  datatype Item = Item(id: nat, parent: Option<nat>, status: Status, phase: Option<nat>)

  datatype Review = Review(phase: nat, round: nat, blocking: bool)

  /** What a pass reads of the job: `items` as `_flatten` lists them, a parent before its
      parts; `named` are the statuses that have a transition. */
  datatype View = View(items: seq<Item>, pullRequest: bool, reviews: seq<Review>, jobFailed: bool, named: set<Status>)

  datatype Mark = PullRequest | Reviewed(phase: nat, round: nat) | FailedHere(item: nat)

  datatype Effect =
    | Created(item: nat, within: Option<nat>, parentKey: Option<nat>)
    | Moved(key: nat, status: Status)
    | Commented(key: nat, mark: Mark)

  /** Something Jira did; the reply may have been lost. */
  datatype Sent = Sent(effect: Effect, known: bool)

  datatype Reply = Replied | Refused | Lost

  /** What the job remembers of Jira, what Jira did, and whether the pass was aborted. */
  datatype Mirror = Mirror(
    keys: map<nat, nat>, statuses: map<nat, Status>, marks: set<Mark>, calls: nat, log: seq<Sent>, failed: bool)

  const NO_MIRROR := Mirror(map[], map[], {}, 0, [], false)

  /** What Jira replies to each call, and the text of each issue's key. */
  datatype Replies = Replies(to: nat -> Reply, text: nat -> string)

  // -- one pass -------------------------------------------------------------------------

  /** One remote call; an error aborts the pass. */
  function Call(replies: Replies, m: Mirror, effect: Effect): Mirror
  {
    match replies.to(m.calls)
    case Replied => m.(calls := m.calls + 1, log := m.log + [Sent(effect, true)])
    case Refused => m.(calls := m.calls + 1, failed := true)
    case Lost => m.(calls := m.calls + 1, log := m.log + [Sent(effect, false)], failed := true)
  }

  function KeyOf(m: Mirror, item: Option<nat>): Option<nat>
  {
    if item.Some? && item.value in m.keys then Some(m.keys[item.value]) else None
  }

  function EnsureIssue(replies: Replies, m: Mirror, item: Item): Mirror
  {
    if item.id in m.keys then m
    else
      var after := Call(replies, m, Created(item.id, item.parent, KeyOf(m, item.parent)));
      if after.failed then after else after.(keys := after.keys[item.id := |m.log|])
  }

  function EnsureIssues(replies: Replies, m: Mirror, items: seq<Item>): Mirror
    decreases |items|
  {
    if m.failed || items == [] then m else EnsureIssues(replies, EnsureIssue(replies, m, items[0]), items[1..])
  }

  /** `_move`: the status is noted before the call, so a call that fails is not made again. */
  function Move(replies: Replies, m: Mirror, item: Item, named: set<Status>): Mirror
  {
    if item.id !in m.keys || (item.id in m.statuses && m.statuses[item.id] == item.status) then m
    else
      var noted := m.(statuses := m.statuses[item.id := item.status]);
      if item.status !in named then noted else Call(replies, noted, Moved(m.keys[item.id], item.status))
  }

  function SyncStatuses(replies: Replies, m: Mirror, items: seq<Item>, named: set<Status>): Mirror
    decreases |items|
  {
    if m.failed || items == [] then m else SyncStatuses(replies, Move(replies, m, items[0], named), items[1..], named)
  }

  // -- keys in the order of their text ----------------------------------------------------

  /** `a` comes before `b` as texts do: "PROJ-10" before "PROJ-2". */
  predicate TextBefore(a: string, b: string)
  {
    if b == [] then false
    else if a == [] then true
    else a[0] < b[0] || (a[0] == b[0] && TextBefore(a[1..], b[1..]))
  }

  function Insert(text: nat -> string, key: nat, ks: seq<nat>): seq<nat>
  {
    if ks == [] || TextBefore(text(key), text(ks[0])) then [key] + ks else [ks[0]] + Insert(text, key, ks[1..])
  }

  /** The keys below `limit`, each once, in the order of their texts. */
  function Sorted(text: nat -> string, keys: set<nat>, limit: nat): seq<nat>
  {
    if limit == 0 then []
    else
      var rest := Sorted(text, keys, limit - 1);
      if limit - 1 in keys then Insert(text, limit - 1, rest) else rest
  }

  /** The link to the pull request, on each of the issues in turn. */
  function LinkIssues(replies: Replies, m: Mirror, ks: seq<nat>): Mirror
    decreases |ks|
  {
    if m.failed || ks == [] then m else LinkIssues(replies, Call(replies, m, Commented(ks[0], PullRequest)), ks[1..])
  }

  function LinkPullRequest(replies: Replies, m: Mirror, open: bool): Mirror
  {
    if !open || PullRequest in m.marks then m
    else
      var after := LinkIssues(replies, m, Sorted(replies.text, m.keys.Values, |m.log|));
      if after.failed then after else after.(marks := after.marks + {PullRequest})
  }

  /** The first task of a phase. */
  function TaskOf(items: seq<Item>, phase: nat): Option<nat>
  {
    if items == [] then None
    else if items[0].phase == Some(phase) then Some(items[0].id)
    else TaskOf(items[1..], phase)
  }

  /** A comment that is posted once, on an issue that is there. */
  function CommentOnce(replies: Replies, m: Mirror, item: Option<nat>, mark: Mark): Mirror
  {
    if mark in m.marks || KeyOf(m, item).None? then m
    else
      var after := Call(replies, m, Commented(KeyOf(m, item).value, mark));
      if after.failed then after else after.(marks := after.marks + {mark})
  }

  function CommentReview(replies: Replies, m: Mirror, items: seq<Item>, r: Review): Mirror
  {
    if r.blocking then CommentOnce(replies, m, TaskOf(items, r.phase), Reviewed(r.phase, r.round)) else m
  }

  function CommentReviews(replies: Replies, m: Mirror, items: seq<Item>, reviews: seq<Review>): Mirror
    decreases |reviews|
  {
    if m.failed || reviews == [] then m
    else CommentReviews(replies, CommentReview(replies, m, items, reviews[0]), items, reviews[1..])
  }

  function CommentFailure(replies: Replies, m: Mirror, item: Item): Mirror
  {
    if item.status == Failed then CommentOnce(replies, m, Some(item.id), FailedHere(item.id)) else m
  }

  function CommentFailures(replies: Replies, m: Mirror, items: seq<Item>): Mirror
    decreases |items|
  {
    if m.failed || items == [] then m else CommentFailures(replies, CommentFailure(replies, m, items[0]), items[1..])
  }

  function Comments(replies: Replies, m: Mirror, v: View): Mirror
  {
    var linked := if m.failed then m else LinkPullRequest(replies, m, v.pullRequest);
    var reviewed := CommentReviews(replies, linked, v.items, v.reviews);
    if v.jobFailed then CommentFailures(replies, reviewed, v.items) else reviewed
  }

  /** `reconcile`. */
  function Reconcile(replies: Replies, m: Mirror, v: View): Mirror
  {
    var start := m.(failed := false);
    if v.items == [] then start
    else
      var issued := EnsureIssues(replies, start, v.items);
      var moved := SyncStatuses(replies, issued, v.items, v.named);
      Comments(replies, moved, v)
  }

  // -- what every pass keeps ------------------------------------------------------------

  ghost predicate IsCreated(log: seq<Sent>, k: nat, item: nat)
  {
    k < |log| && log[k].effect.Created? && log[k].effect.item == item
  }

  ghost predicate KnownComment(log: seq<Sent>, k: nat, mark: Mark)
  {
    k < |log| && log[k].known && log[k].effect.Commented? && log[k].effect.mark == mark
  }

  /** An item's key is the one issue Jira said it made for it. */
  ghost predicate KeysRight(m: Mirror)
  {
    && (forall id :: id in m.keys ==> IsCreated(m.log, m.keys[id], id) && m.log[m.keys[id]].known)
    && (forall k: nat, id: nat :: IsCreated(m.log, k, id) && m.log[k].known ==> id in m.keys && m.keys[id] == k)
  }

  /** An issue that is part of another was made under that one's key. */
  ghost predicate ParentsRight(m: Mirror)
  {
    forall k: nat, id: nat :: IsCreated(m.log, k, id) && m.log[k].effect.parentKey.Some? ==>
      && m.log[k].effect.within.Some? && m.log[k].effect.within.value in m.keys
      && m.log[k].effect.parentKey.value == m.keys[m.log[k].effect.within.value] < k
  }

  /** A mark other than the pull request's is there exactly when its comment was posted, and it was posted once. */
  ghost predicate MarksRight(m: Mirror)
  {
    && (forall k: nat, mark :: mark != PullRequest && KnownComment(m.log, k, mark) ==> mark in m.marks)
    && (forall k: nat, l: nat, mark :: mark != PullRequest && KnownComment(m.log, k, mark) && KnownComment(m.log, l, mark) ==> k == l)
    && (forall mark :: mark in m.marks && mark != PullRequest ==> exists k: nat :: KnownComment(m.log, k, mark))
  }

  ghost predicate Right(m: Mirror)
  {
    KeysRight(m) && ParentsRight(m) && MarksRight(m)
  }

  /** What was done stays done. */
  ghost predicate Grown(m: Mirror, n: Mirror)
  {
    && (forall id :: id in m.keys ==> id in n.keys && n.keys[id] == m.keys[id])
    && m.log <= n.log && m.calls <= n.calls && m.marks <= n.marks
  }

  lemma {:induction false} LogExtends(log: seq<Sent>, s: Sent)
    ensures forall k: nat, id: nat :: IsCreated(log + [s], k, id) <==>
      IsCreated(log, k, id) || (k == |log| && s.effect.Created? && s.effect.item == id)
    ensures forall k: nat, mark :: KnownComment(log + [s], k, mark) <==>
      KnownComment(log, k, mark) || (k == |log| && s.known && s.effect.Commented? && s.effect.mark == mark)
  {
  }

  /** A call that creates nothing leaves the issues as they are. */
  lemma {:induction false} IssuesLeft(m: Mirror, n: Mirror, s: Sent)
    requires KeysRight(m) && ParentsRight(m) && n.keys == m.keys && n.log == m.log + [s] && !s.effect.Created?
    ensures KeysRight(n) && ParentsRight(n)
  {
    LogExtends(m.log, s);
  }

  lemma {:induction false} MarksLeft(m: Mirror, n: Mirror, s: Sent)
    requires MarksRight(m) && n.marks == m.marks && n.log == m.log + [s]
    requires s.known && s.effect.Commented? ==> s.effect.mark == PullRequest
    ensures MarksRight(n)
  {
    LogExtends(m.log, s);
    forall mark | mark in n.marks && mark != PullRequest ensures exists k: nat :: KnownComment(n.log, k, mark) {
      var k: nat :| KnownComment(m.log, k, mark);
      assert KnownComment(n.log, k, mark);
    }
  }

  lemma {:induction false} MarkAdded(m: Mirror, n: Mirror, key: nat, mark: Mark)
    requires MarksRight(m) && mark !in m.marks && n.marks == m.marks + {mark} && n.log == m.log + [Sent(Commented(key, mark), true)]
    ensures MarksRight(n)
  {
    LogExtends(m.log, Sent(Commented(key, mark), true));
    assert KnownComment(n.log, |m.log|, mark);
    forall x | x in m.marks && x != PullRequest ensures exists k: nat :: KnownComment(n.log, k, x) {
      var k: nat :| KnownComment(m.log, k, x);
      assert KnownComment(n.log, k, x);
    }
  }

  /** A pass at work: not aborted, and right. */
  ghost predicate AtWork(m: Mirror)
  {
    !m.failed && Right(m)
  }

  lemma {:induction false} CommentOnceKeeps(replies: Replies, m: Mirror, item: Option<nat>, mark: Mark)
    requires AtWork(m) && mark != PullRequest
    ensures Right(CommentOnce(replies, m, item, mark)) && Grown(m, CommentOnce(replies, m, item, mark))
  {
    var n := CommentOnce(replies, m, item, mark);
    if mark !in m.marks && KeyOf(m, item).Some? && |n.log| == |m.log| + 1 {
      var s := Sent(Commented(KeyOf(m, item).value, mark), !n.failed);
      assert n.log == m.log + [s];
      IssuesLeft(m, n, s);
      if n.failed {
        MarksLeft(m, n, s);
      } else {
        MarkAdded(m, n, KeyOf(m, item).value, mark);
      }
    }
  }

  lemma {:induction false} LinkKeeps(replies: Replies, m: Mirror, key: nat)
    requires AtWork(m)
    ensures Right(Call(replies, m, Commented(key, PullRequest))) && Grown(m, Call(replies, m, Commented(key, PullRequest)))
  {
    var n := Call(replies, m, Commented(key, PullRequest));
    if |n.log| == |m.log| + 1 {
      IssuesLeft(m, n, n.log[|m.log|]);
      MarksLeft(m, n, n.log[|m.log|]);
    }
  }

  lemma {:induction false} MoveKeeps(replies: Replies, m: Mirror, item: Item, named: set<Status>)
    requires AtWork(m)
    ensures Right(Move(replies, m, item, named)) && Grown(m, Move(replies, m, item, named))
  {
    var n := Move(replies, m, item, named);
    if |n.log| == |m.log| + 1 {
      IssuesLeft(m, n, n.log[|m.log|]);
      MarksLeft(m, n, n.log[|m.log|]);
    }
  }

  lemma {:induction false} EnsureKeeps(replies: Replies, m: Mirror, item: Item)
    requires AtWork(m)
    ensures Right(EnsureIssue(replies, m, item)) && Grown(m, EnsureIssue(replies, m, item))
  {
    var n := EnsureIssue(replies, m, item);
    if |n.log| == |m.log| + 1 {
      LogExtends(m.log, n.log[|m.log|]);
      MarksLeft(m, n, n.log[|m.log|]);
      EnsureParents(m, n, item);
    }
  }

  lemma {:induction false} EnsureParents(m: Mirror, n: Mirror, item: Item)
    requires KeysRight(m) && ParentsRight(m) && item.id !in m.keys
    requires n.keys == m.keys || n.keys == m.keys[item.id := |m.log|]
    requires |n.log| == |m.log| + 1 && n.log == m.log + [n.log[|m.log|]]
    requires n.log[|m.log|].effect == Created(item.id, item.parent, KeyOf(m, item.parent))
    ensures ParentsRight(n)
  {
    LogExtends(m.log, n.log[|m.log|]);
  }

  // -- every pass -----------------------------------------------------------------------

  lemma {:induction false} GrownTwice(a: Mirror, b: Mirror, c: Mirror)
    requires Grown(a, b) && Grown(b, c)
    ensures Grown(a, c)
  {
  }

  lemma {:induction false} EnsureAllKeeps(replies: Replies, m: Mirror, items: seq<Item>)
    requires Right(m)
    ensures Right(EnsureIssues(replies, m, items)) && Grown(m, EnsureIssues(replies, m, items))
    decreases |items|
  {
    if !m.failed && items != [] {
      EnsureKeeps(replies, m, items[0]);
      var n := EnsureIssue(replies, m, items[0]);
      EnsureAllKeeps(replies, n, items[1..]);
      GrownTwice(m, n, EnsureIssues(replies, n, items[1..]));
    }
  }

  lemma {:induction false} SyncKeeps(replies: Replies, m: Mirror, items: seq<Item>, named: set<Status>)
    requires Right(m)
    ensures Right(SyncStatuses(replies, m, items, named)) && Grown(m, SyncStatuses(replies, m, items, named))
    decreases |items|
  {
    if !m.failed && items != [] {
      MoveKeeps(replies, m, items[0], named);
      var n := Move(replies, m, items[0], named);
      SyncKeeps(replies, n, items[1..], named);
      GrownTwice(m, n, SyncStatuses(replies, n, items[1..], named));
    }
  }

  lemma {:induction false} LinksKeep(replies: Replies, m: Mirror, ks: seq<nat>)
    requires Right(m)
    ensures var n := LinkIssues(replies, m, ks); Right(n) && Grown(m, n) && n.marks == m.marks && n.keys == m.keys
    decreases |ks|
  {
    if !m.failed && ks != [] {
      var n := Call(replies, m, Commented(ks[0], PullRequest));
      LinkKeeps(replies, m, ks[0]);
      LinksKeep(replies, n, ks[1..]);
      GrownTwice(m, n, LinkIssues(replies, n, ks[1..]));
    }
  }

  lemma {:induction false} LinkedKeeps(replies: Replies, m: Mirror, open: bool)
    requires AtWork(m)
    ensures Right(LinkPullRequest(replies, m, open)) && Grown(m, LinkPullRequest(replies, m, open))
  {
    LinksKeep(replies, m, Sorted(replies.text, m.keys.Values, |m.log|));
  }

  lemma {:induction false} ReviewsKeep(replies: Replies, m: Mirror, items: seq<Item>, reviews: seq<Review>)
    requires Right(m)
    ensures Right(CommentReviews(replies, m, items, reviews)) && Grown(m, CommentReviews(replies, m, items, reviews))
    decreases |reviews|
  {
    if !m.failed && reviews != [] {
      var r := reviews[0];
      CommentOnceKeeps(replies, m, TaskOf(items, r.phase), Reviewed(r.phase, r.round));
      var n := CommentReview(replies, m, items, r);
      ReviewsKeep(replies, n, items, reviews[1..]);
      GrownTwice(m, n, CommentReviews(replies, n, items, reviews[1..]));
    }
  }

  lemma {:induction false} FailuresKeep(replies: Replies, m: Mirror, items: seq<Item>)
    requires Right(m)
    ensures Right(CommentFailures(replies, m, items)) && Grown(m, CommentFailures(replies, m, items))
    decreases |items|
  {
    if !m.failed && items != [] {
      CommentOnceKeeps(replies, m, Some(items[0].id), FailedHere(items[0].id));
      var n := CommentFailure(replies, m, items[0]);
      FailuresKeep(replies, n, items[1..]);
      GrownTwice(m, n, CommentFailures(replies, n, items[1..]));
    }
  }

  lemma {:induction false} CommentsKeep(replies: Replies, m: Mirror, v: View)
    requires Right(m)
    ensures Right(Comments(replies, m, v)) && Grown(m, Comments(replies, m, v))
  {
    if !m.failed {
      LinkedKeeps(replies, m, v.pullRequest);
    }
    var linked := if m.failed then m else LinkPullRequest(replies, m, v.pullRequest);
    ReviewsKeep(replies, linked, v.items, v.reviews);
    var reviewed := CommentReviews(replies, linked, v.items, v.reviews);
    FailuresKeep(replies, reviewed, v.items);
    GrownTwice(m, linked, reviewed);
    GrownTwice(m, reviewed, Comments(replies, m, v));
  }

  /** A pass leaves the mirror right, whichever of its calls fail, and undoes nothing. */
  lemma {:induction false} PassKeeps(replies: Replies, m: Mirror, v: View)
    requires Right(m)
    ensures Right(Reconcile(replies, m, v)) && Grown(m, Reconcile(replies, m, v))
  {
    var start := m.(failed := false);
    EnsureAllKeeps(replies, start, v.items);
    var issued := EnsureIssues(replies, start, v.items);
    SyncKeeps(replies, issued, v.items, v.named);
    var moved := SyncStatuses(replies, issued, v.items, v.named);
    CommentsKeep(replies, moved, v);
    GrownTwice(start, issued, moved);
    if v.items != [] {
      GrownTwice(start, moved, Reconcile(replies, m, v));
    }
  }

  /** Passes one after another, each over the job as it is by then. */
  function Passes(replies: Replies, views: seq<View>): Mirror
  {
    if views == [] then NO_MIRROR
    else Reconcile(replies, Passes(replies, views[..|views| - 1]), views[|views| - 1])
  }

  lemma {:induction false} PassesKeep(replies: Replies, views: seq<View>)
    ensures Right(Passes(replies, views))
  {
    if views != [] {
      PassesKeep(replies, views[..|views| - 1]);
      PassKeeps(replies, Passes(replies, views[..|views| - 1]), views[|views| - 1]);
    }
  }

  /** Over any passes, an item has a second issue only where the reply to a creation was lost. */
  lemma {:induction false} OneIssueEach(replies: Replies, views: seq<View>, k: nat, l: nat, id: nat)
    requires var log := Passes(replies, views).log; k < l && IsCreated(log, k, id) && IsCreated(log, l, id)
    ensures !Passes(replies, views).log[k].known || !Passes(replies, views).log[l].known
  {
    PassesKeep(replies, views);
  }

  /** And a mark, but the pull request's, is commented once for every reply that came. */
  lemma {:induction false} OneCommentEach(replies: Replies, views: seq<View>, k: nat, l: nat, mark: Mark)
    requires var log := Passes(replies, views).log; k < l && mark != PullRequest && KnownComment(log, k, mark)
    ensures !KnownComment(Passes(replies, views).log, l, mark)
  {
    PassesKeep(replies, views);
  }

  // -- nothing left to do ---------------------------------------------------------------

  ghost predicate DistinctIds(items: seq<Item>)
  {
    forall i, j :: 0 <= i < j < |items| ==> items[i].id != items[j].id
  }

  ghost predicate AllIssued(m: Mirror, items: seq<Item>)
  {
    forall i :: 0 <= i < |items| ==> items[i].id in m.keys
  }

  ghost predicate AllMoved(m: Mirror, items: seq<Item>)
  {
    forall i :: 0 <= i < |items| ==> items[i].id in m.statuses && m.statuses[items[i].id] == items[i].status
  }

  /** The comment was posted, or there is no issue to post it on. */
  ghost predicate NothingToSay(m: Mirror, item: Option<nat>, mark: Mark)
  {
    mark in m.marks || KeyOf(m, item).None?
  }

  ghost predicate AllSaid(m: Mirror, v: View)
  {
    && (v.pullRequest ==> PullRequest in m.marks)
    && AllReviewsSaid(m, v.items, v.reviews)
    && (v.jobFailed ==> AllFailuresSaid(m, v.items))
  }

  ghost predicate AllReviewsSaid(m: Mirror, items: seq<Item>, reviews: seq<Review>)
  {
    forall i :: 0 <= i < |reviews| && reviews[i].blocking ==>
      NothingToSay(m, TaskOf(items, reviews[i].phase), Reviewed(reviews[i].phase, reviews[i].round))
  }

  ghost predicate AllFailuresSaid(m: Mirror, items: seq<Item>)
  {
    forall i :: 0 <= i < |items| && items[i].status == Failed ==> NothingToSay(m, Some(items[i].id), FailedHere(items[i].id))
  }

  ghost predicate Settled(m: Mirror, v: View)
  {
    !m.failed && AllIssued(m, v.items) && AllMoved(m, v.items) && (v.items != [] ==> AllSaid(m, v))
  }

  lemma {:induction false} IssuedAfter(replies: Replies, m: Mirror, items: seq<Item>)
    requires !EnsureIssues(replies, m, items).failed
    ensures AllIssued(EnsureIssues(replies, m, items), items)
    ensures m.keys.Keys <= EnsureIssues(replies, m, items).keys.Keys && EnsureIssues(replies, m, items).marks == m.marks
    decreases |items|
  {
    if items != [] {
      var n := EnsureIssue(replies, m, items[0]);
      if !m.failed {
        IssuedAfter(replies, n, items[1..]);
      }
    }
  }

  lemma {:induction false} MovedAfter(replies: Replies, m: Mirror, items: seq<Item>, named: set<Status>)
    requires !SyncStatuses(replies, m, items, named).failed && AllIssued(m, items) && DistinctIds(items)
    ensures var n := SyncStatuses(replies, m, items, named);
      && AllMoved(n, items) && n.keys == m.keys && n.marks == m.marks
      && (forall id :: id in m.statuses && (forall i :: 0 <= i < |items| ==> items[i].id != id) ==> id in n.statuses && n.statuses[id] == m.statuses[id])
    decreases |items|
  {
    if items != [] && !m.failed {
      MovedAfter(replies, Move(replies, m, items[0], named), items[1..], named);
    }
  }

  /** Everything but the comments and their marks stays. */
  ghost predicate OnlySaid(m: Mirror, n: Mirror)
  {
    n.keys == m.keys && n.statuses == m.statuses && m.marks <= n.marks
  }

  lemma {:induction false} LinkedAfter(replies: Replies, m: Mirror, ks: seq<nat>)
    ensures OnlySaid(m, LinkIssues(replies, m, ks))
    decreases |ks|
  {
    if !m.failed && ks != [] {
      LinkedAfter(replies, Call(replies, m, Commented(ks[0], PullRequest)), ks[1..]);
    }
  }

  lemma {:induction false} ReviewsAfter(replies: Replies, m: Mirror, items: seq<Item>, reviews: seq<Review>)
    ensures OnlySaid(m, CommentReviews(replies, m, items, reviews))
    ensures !CommentReviews(replies, m, items, reviews).failed ==> AllReviewsSaid(CommentReviews(replies, m, items, reviews), items, reviews)
    decreases |reviews|
  {
    if !m.failed && reviews != [] {
      ReviewsAfter(replies, CommentReview(replies, m, items, reviews[0]), items, reviews[1..]);
    }
  }

  lemma {:induction false} FailuresAfter(replies: Replies, m: Mirror, items: seq<Item>)
    ensures OnlySaid(m, CommentFailures(replies, m, items))
    ensures !CommentFailures(replies, m, items).failed ==> AllFailuresSaid(CommentFailures(replies, m, items), items)
    decreases |items|
  {
    if !m.failed && items != [] {
      FailuresAfter(replies, CommentFailure(replies, m, items[0]), items[1..]);
    }
  }

  lemma {:induction false} SaidAfter(replies: Replies, m: Mirror, v: View)
    requires !Comments(replies, m, v).failed
    ensures AllSaid(Comments(replies, m, v), v) && OnlySaid(m, Comments(replies, m, v))
  {
    FailedStays(replies, m, v);
    LinkedAfter(replies, m, Sorted(replies.text, m.keys.Values, |m.log|));
    var linked := if m.failed then m else LinkPullRequest(replies, m, v.pullRequest);
    ReviewsAfter(replies, linked, v.items, v.reviews);
    var reviewed := CommentReviews(replies, linked, v.items, v.reviews);
    FailuresAfter(replies, reviewed, v.items);
  }

  /** An aborted pass makes no further call. */
  lemma {:induction false} FailedStays(replies: Replies, m: Mirror, v: View)
    ensures m.failed ==> Comments(replies, m, v) == m && SyncStatuses(replies, m, v.items, v.named) == m
  {
  }

  lemma {:induction false} SettledAfter(replies: Replies, m: Mirror, v: View)
    requires !Reconcile(replies, m, v).failed && DistinctIds(v.items)
    ensures Settled(Reconcile(replies, m, v), v)
  {
    if v.items == [] {
      return;
    }
    var issued := EnsureIssues(replies, m.(failed := false), v.items);
    var moved := SyncStatuses(replies, issued, v.items, v.named);
    FailedStays(replies, issued, v);
    FailedStays(replies, moved, v);
    IssuedAfter(replies, m.(failed := false), v.items);
    MovedAfter(replies, issued, v.items, v.named);
    SaidAfter(replies, moved, v);
  }

  lemma {:induction false} NothingIssued(replies: Replies, m: Mirror, items: seq<Item>)
    requires AllIssued(m, items)
    ensures EnsureIssues(replies, m, items) == m
    decreases |items|
  {
    if items != [] && !m.failed {
      NothingIssued(replies, m, items[1..]);
    }
  }

  lemma {:induction false} NothingMoved(replies: Replies, m: Mirror, items: seq<Item>, named: set<Status>)
    requires AllMoved(m, items)
    ensures SyncStatuses(replies, m, items, named) == m
    decreases |items|
  {
    if items != [] && !m.failed {
      NothingMoved(replies, m, items[1..], named);
    }
  }

  lemma {:induction false} NothingReviewed(replies: Replies, m: Mirror, items: seq<Item>, reviews: seq<Review>)
    requires AllReviewsSaid(m, items, reviews)
    ensures CommentReviews(replies, m, items, reviews) == m
    decreases |reviews|
  {
    if reviews != [] && !m.failed {
      assert reviews[0].blocking ==> NothingToSay(m, TaskOf(items, reviews[0].phase), Reviewed(reviews[0].phase, reviews[0].round));
      NothingReviewed(replies, m, items, reviews[1..]);
    }
  }

  lemma {:induction false} NothingFailed(replies: Replies, m: Mirror, items: seq<Item>)
    requires AllFailuresSaid(m, items)
    ensures CommentFailures(replies, m, items) == m
    decreases |items|
  {
    if items != [] && !m.failed {
      assert items[0].status == Failed ==> NothingToSay(m, Some(items[0].id), FailedHere(items[0].id));
      NothingFailed(replies, m, items[1..]);
    }
  }

  /** After a pass that was not aborted, another over the same job calls Jira for nothing,
      whatever Jira would have replied. */
  lemma {:induction false} AnotherPassIsIdle(replies: Replies, later: Replies, m: Mirror, v: View)
    requires !Reconcile(replies, m, v).failed && DistinctIds(v.items)
    ensures Reconcile(later, Reconcile(replies, m, v), v) == Reconcile(replies, m, v)
  {
    var n := Reconcile(replies, m, v);
    SettledAfter(replies, m, v);
    if v.items == [] {
      return;
    }
    NothingIssued(later, n, v.items);
    NothingMoved(later, n, v.items, v.named);
    NothingReviewed(later, n, v.items, v.reviews);
    if v.jobFailed {
      NothingFailed(later, n, v.items);
    }
  }

  // -- what a failed call leaves behind -------------------------------------------------

  /** A status is tried once: its issue is moved exactly when there is a transition and Jira
      did not refuse it, and no later pass tries again while the item has that status. */
  lemma {:induction false} MoveTriedOnce(replies: Replies, later: Replies, m: Mirror, item: Item, named: set<Status>)
    requires !m.failed && item.id in m.keys && (item.id in m.statuses ==> m.statuses[item.id] != item.status)
    ensures var n := Move(replies, m, item, named);
      && (|n.log| == |m.log| + 1 && n.log[|m.log|].effect == Moved(m.keys[item.id], item.status)
          <==> item.status in named && replies.to(m.calls) != Refused)
      && Move(later, n.(failed := false), item, named) == n.(failed := false)
  {
  }

  /** A creation whose reply was lost is made again as soon as Jira does not refuse it. */
  lemma {:induction false} LostIssueMadeAgain(replies: Replies, later: Replies, m: Mirror, item: Item)
    requires !m.failed && item.id !in m.keys && replies.to(m.calls) == Lost
    ensures var n := EnsureIssue(replies, m, item);
      && n.failed && item.id !in n.keys && IsCreated(n.log, |m.log|, item.id)
      && var again := EnsureIssue(later, n.(failed := false), item);
         IsCreated(again.log, |m.log| + 1, item.id) <==> later.to(n.calls) != Refused
  {
  }

  const ONE_ITEM := View([Item(0, None, Todo, None)], false, [], false, {})

  /** Jira's first reply is lost, and nothing else. */
  function FirstLost(): Replies
  {
    Replies((n: nat) => if n == 0 then Lost else Replied, KeyText)
  }

  /** One item has two issues after the next pass. */
  lemma {:induction false} IssueMadeTwice()
    ensures var log := Passes(FirstLost(), [ONE_ITEM, ONE_ITEM]).log; IsCreated(log, 0, 0) && IsCreated(log, 1, 0)
  {
    var replies, v, item := FirstLost(), ONE_ITEM, ONE_ITEM.items[0];
    assert [v, v][..1] == [v] && [v][..0] == [];
    assert ONE_ITEM.items[1..] == [];
    var once := EnsureIssue(replies, NO_MIRROR, item);
    assert Passes(replies, [v]) == once;
    var twice := EnsureIssue(replies, once.(failed := false), item);
    assert EnsureIssues(replies, once.(failed := false), v.items) == twice;
    var moved := SyncStatuses(replies, twice, v.items, v.named);
    assert moved.log == twice.log && !moved.failed;
  }

  // -- the link to the pull request ---------------------------------------------------------

  /** How often issue `key` was linked to the pull request, whether the reply came or not. */
  function Links(log: seq<Sent>, key: nat): nat
  {
    if log == [] then 0
    else Links(log[..|log| - 1], key) + if log[|log| - 1].effect == Commented(key, PullRequest) then 1 else 0
  }

  lemma {:induction false} LinksOneMore(log: seq<Sent>, s: Sent, key: nat)
    ensures Links(log + [s], key) == Links(log, key) + if s.effect == Commented(key, PullRequest) then 1 else 0
  {
    assert (log + [s])[..|log|] == log;
  }

  /** A call about anything else links nothing. */
  lemma {:induction false} CallLinks(replies: Replies, m: Mirror, effect: Effect, key: nat)
    ensures Links(Call(replies, m, effect).log, key)
      == Links(m.log, key) + if effect == Commented(key, PullRequest) && replies.to(m.calls) != Refused then 1 else 0
  {
    LinksOneMore(m.log, Sent(effect, replies.to(m.calls) == Replied), key);
  }

  lemma {:induction false} EnsureLinksNone(replies: Replies, m: Mirror, items: seq<Item>, key: nat)
    ensures var n := EnsureIssues(replies, m, items); Links(n.log, key) == Links(m.log, key) && n.marks == m.marks
    decreases |items|
  {
    if !m.failed && items != [] {
      CallLinks(replies, m, Created(items[0].id, items[0].parent, KeyOf(m, items[0].parent)), key);
      EnsureLinksNone(replies, EnsureIssue(replies, m, items[0]), items[1..], key);
    }
  }

  lemma {:induction false} SyncLinksNone(replies: Replies, m: Mirror, items: seq<Item>, named: set<Status>, key: nat)
    ensures var n := SyncStatuses(replies, m, items, named); Links(n.log, key) == Links(m.log, key) && n.marks == m.marks && n.keys == m.keys
    decreases |items|
  {
    if !m.failed && items != [] {
      if items[0].id in m.keys {
        var noted := m.(statuses := m.statuses[items[0].id := items[0].status]);
        CallLinks(replies, noted, Moved(m.keys[items[0].id], items[0].status), key);
      }
      SyncLinksNone(replies, Move(replies, m, items[0], named), items[1..], named, key);
    }
  }

  lemma {:induction false} OnceLinksNone(replies: Replies, m: Mirror, item: Option<nat>, mark: Mark, key: nat)
    requires mark != PullRequest
    ensures var n := CommentOnce(replies, m, item, mark);
      Links(n.log, key) == Links(m.log, key) && (PullRequest in n.marks <==> PullRequest in m.marks)
  {
    if KeyOf(m, item).Some? {
      CallLinks(replies, m, Commented(KeyOf(m, item).value, mark), key);
    }
  }

  lemma {:induction false} ReviewsLinkNone(replies: Replies, m: Mirror, items: seq<Item>, reviews: seq<Review>, key: nat)
    ensures var n := CommentReviews(replies, m, items, reviews);
      Links(n.log, key) == Links(m.log, key) && (PullRequest in n.marks <==> PullRequest in m.marks)
    decreases |reviews|
  {
    if !m.failed && reviews != [] {
      var r := reviews[0];
      OnceLinksNone(replies, m, TaskOf(items, r.phase), Reviewed(r.phase, r.round), key);
      ReviewsLinkNone(replies, CommentReview(replies, m, items, r), items, reviews[1..], key);
    }
  }

  lemma {:induction false} FailuresLinkNone(replies: Replies, m: Mirror, items: seq<Item>, key: nat)
    ensures var n := CommentFailures(replies, m, items);
      Links(n.log, key) == Links(m.log, key) && (PullRequest in n.marks <==> PullRequest in m.marks)
    decreases |items|
  {
    if !m.failed && items != [] {
      OnceLinksNone(replies, m, Some(items[0].id), FailedHere(items[0].id), key);
      FailuresLinkNone(replies, CommentFailure(replies, m, items[0]), items[1..], key);
    }
  }

  lemma {:induction false} TextOrder(a: string, b: string)
    ensures !TextBefore(a, a) && !(TextBefore(a, b) && TextBefore(b, a)) && (a == b || TextBefore(a, b) || TextBefore(b, a))
    decreases |a|
  {
    if a != [] {
      TextOrder(a[1..], if b == [] then [] else b[1..]);
      if b != [] && a[0] == b[0] && a[1..] == b[1..] {
        assert a == [a[0]] + a[1..] && b == [b[0]] + b[1..];
      }
    }
  }

  lemma {:induction false} TextFollows(a: string, b: string, c: string)
    requires TextBefore(a, b) && TextBefore(b, c)
    ensures TextBefore(a, c)
    decreases |a|
  {
    if a != [] && a[0] == b[0] == c[0] {
      TextFollows(a[1..], b[1..], c[1..]);
    }
  }

  /** The texts are the same up to `i`, where `a` ends or has the smaller character. */
  ghost predicate FirstApart(a: string, b: string, i: nat)
  {
    i <= |a| && i < |b| && a[..i] == b[..i] && (i == |a| || a[i] < b[i])
  }

  /** Texts are compared as dictionaries do. */
  lemma {:induction false} TextBeforeIs(a: string, b: string)
    ensures TextBefore(a, b) <==> exists i: nat :: FirstApart(a, b, i)
    decreases |a|
  {
    if a == [] || b == [] || a[0] < b[0] {
      assert b != [] ==> FirstApart(a, b, 0);
    } else {
      TextBeforeIs(a[1..], b[1..]);
      if i: nat :| FirstApart(a[1..], b[1..], i) && a[0] == b[0] {
        assert a[..i + 1] == [a[0]] + a[1..][..i] && b[..i + 1] == [b[0]] + b[1..][..i];
        assert FirstApart(a, b, i + 1);
      }
      if i: nat :| FirstApart(a, b, i) {
        assert i != 0 ==> a[0] == a[..i][0] && b[0] == b[..i][0];
        assert a[1..][..i - 1] == a[..i][1..] && b[1..][..i - 1] == b[..i][1..];
        assert FirstApart(a[1..], b[1..], i - 1);
      }
    }
  }

  /** No two issues have one key. */
  ghost predicate KeysApart(text: nat -> string)
  {
    forall a: nat, b: nat :: text(a) == text(b) ==> a == b
  }

  ghost predicate InTextOrder(text: nat -> string, ks: seq<nat>)
  {
    forall i: nat, j: nat :: i < j < |ks| ==> TextBefore(text(ks[i]), text(ks[j]))
  }

  lemma {:induction false} InsertKeeps(text: nat -> string, key: nat, ks: seq<nat>)
    requires KeysApart(text) && InTextOrder(text, ks) && key !in ks
    ensures InTextOrder(text, Insert(text, key, ks))
    ensures forall k :: k in Insert(text, key, ks) <==> k == key || k in ks
    decreases |ks|
  {
    var all := Insert(text, key, ks);
    if ks == [] {
    } else if TextBefore(text(key), text(ks[0])) {
      forall i: nat, j: nat | i < j < |all| ensures TextBefore(text(all[i]), text(all[j])) {
        if 0 < i {
          assert all[i] == ks[i - 1] && all[j] == ks[j - 1];
        } else if 1 < j {
          assert all[j] == ks[j - 1];
          TextFollows(text(key), text(ks[0]), text(ks[j - 1]));
        }
      }
    } else {
      TextOrder(text(key), text(ks[0]));
      var rest := Insert(text, key, ks[1..]);
      InsertKeeps(text, key, ks[1..]);
      forall i: nat, j: nat | i < j < |all| ensures TextBefore(text(all[i]), text(all[j])) {
        assert all[j] == rest[j - 1] && rest[j - 1] in rest;
        if i == 0 && rest[j - 1] != key {
          var l: nat :| l < |ks[1..]| && ks[1..][l] == rest[j - 1];
          assert ks[l + 1] == rest[j - 1];
        }
      }
    }
  }

  lemma {:induction false} SortedIs(text: nat -> string, keys: set<nat>, limit: nat)
    requires KeysApart(text)
    ensures InTextOrder(text, Sorted(text, keys, limit))
    ensures forall k :: k in Sorted(text, keys, limit) <==> k in keys && k < limit
  {
    if limit != 0 {
      SortedIs(text, keys, limit - 1);
      if limit - 1 in keys {
        InsertKeeps(text, limit - 1, Sorted(text, keys, limit - 1));
      }
    }
  }

  /** The issues whose key's text comes before that of `key`. */
  function Ahead(text: nat -> string, keys: set<nat>, key: nat): set<nat>
  {
    set k | k in keys && TextBefore(text(k), text(key))
  }

  /** What stands before a key in the sorted list is what is ahead of it. */
  lemma {:induction false} PlaceIsAhead(text: nat -> string, keys: set<nat>, ks: seq<nat>, p: nat)
    requires InTextOrder(text, ks) && p < |ks| && forall k :: k in ks <==> k in keys
    ensures |Ahead(text, keys, ks[p])| == p
  {
    var first := set i: nat | i < p :: ks[i];
    forall k ensures k in first <==> k in Ahead(text, keys, ks[p]) {
      if k in Ahead(text, keys, ks[p]) {
        var i: nat :| i < |ks| && ks[i] == k;
        TextOrder(text(k), text(ks[p]));
      }
    }
    assert first == Ahead(text, keys, ks[p]);
    FirstCount(text, ks, p);
  }

  lemma {:induction false} FirstCount(text: nat -> string, ks: seq<nat>, p: nat)
    requires InTextOrder(text, ks) && p <= |ks|
    ensures |set i: nat | i < p :: ks[i]| == p
  {
    if p != 0 {
      FirstCount(text, ks, p - 1);
      var before := set i: nat | i < p - 1 :: ks[i];
      TextOrder(text(ks[p - 1]), text(ks[p - 1]));
      assert (set i: nat | i < p :: ks[i]) == before + {ks[p - 1]};
    }
  }

  /** Jira replies to `p` calls from `calls` on, and does not refuse the next. */
  ghost predicate Answered(replies: Replies, calls: nat, p: nat)
  {
    (forall c: nat :: calls <= c < calls + p ==> replies.to(c) == Replied) && replies.to(calls + p) != Refused
  }

  /** The same, one issue of `ks` after another. */
  predicate AnsweredInTurn(replies: Replies, calls: nat, ks: seq<nat>, key: nat)
    decreases |ks|
  {
    ks != []
    && if ks[0] == key then replies.to(calls) != Refused
       else replies.to(calls) == Replied && AnsweredInTurn(replies, calls + 1, ks[1..], key)
  }

  lemma {:induction false} InTurnIsAnswered(replies: Replies, calls: nat, ks: seq<nat>, p: nat)
    requires p < |ks| && forall i: nat :: i < p ==> ks[i] != ks[p]
    ensures AnsweredInTurn(replies, calls, ks, ks[p]) <==> Answered(replies, calls, p)
    decreases p
  {
    if 0 < p {
      assert ks[0] != ks[p];
      InTurnIsAnswered(replies, calls + 1, ks[1..], p - 1);
      assert calls + 1 + (p - 1) == calls + p;
    }
  }

  /** Linking gets to issue `key`: Jira replied for every issue ahead of it, and did not
      refuse this one. */
  ghost predicate GetsTo(replies: Replies, calls: nat, keys: set<nat>, key: nat)
  {
    Answered(replies, calls, |Ahead(replies.text, keys, key)|)
  }

  ghost predicate NoneTwice(ks: seq<nat>)
  {
    ks == [] || (ks[0] !in ks[1..] && NoneTwice(ks[1..]))
  }

  /** The first issue is linked, and linking goes on from there unless that call failed. */
  lemma {:induction false} LinkFirst(replies: Replies, m: Mirror, ks: seq<nat>)
    requires !m.failed && ks != []
    ensures var n := Call(replies, m, Commented(ks[0], PullRequest));
      && LinkIssues(replies, m, ks) == (if n.failed then n else LinkIssues(replies, n, ks[1..]))
      && n.calls == m.calls + 1 && (n.failed <==> replies.to(m.calls) != Replied)
  {
  }

  lemma {:induction false} LinkedInTurn(replies: Replies, m: Mirror, ks: seq<nat>, key: nat)
    requires !m.failed && NoneTwice(ks)
    ensures Links(LinkIssues(replies, m, ks).log, key) == Links(m.log, key) + if AnsweredInTurn(replies, m.calls, ks, key) then 1 else 0
    decreases |ks|
  {
    if ks != [] {
      var n := Call(replies, m, Commented(ks[0], PullRequest));
      LinkFirst(replies, m, ks);
      if ks[0] == key {
        LinkedNoMore(replies, n, ks[1..], key);
      } else if !n.failed {
        LinkedInTurn(replies, n, ks[1..], key);
      }
      CallLinks(replies, m, Commented(ks[0], PullRequest), key);
    }
  }

  lemma {:induction false} LinkedNoMore(replies: Replies, m: Mirror, ks: seq<nat>, key: nat)
    requires key !in ks
    ensures Links(LinkIssues(replies, m, ks).log, key) == Links(m.log, key)
    decreases |ks|
  {
    if !m.failed && ks != [] {
      CallLinks(replies, m, Commented(ks[0], PullRequest), key);
      LinkedNoMore(replies, Call(replies, m, Commented(ks[0], PullRequest)), ks[1..], key);
    }
  }

  /** Linking goes through the keys in the order of their texts, and gets to an issue exactly
      when Jira replied for every issue ahead of it and does not refuse this one. */
  lemma {:induction false} LinkedWhereReached(replies: Replies, m: Mirror, key: nat)
    requires !m.failed && KeysApart(replies.text) && forall k :: k in m.keys.Values ==> k < |m.log|
    ensures var ks := Sorted(replies.text, m.keys.Values, |m.log|);
      Links(LinkIssues(replies, m, ks).log, key) == Links(m.log, key)
        + if key in m.keys.Values && GetsTo(replies, m.calls, m.keys.Values, key) then 1 else 0
  {
    var ks := Sorted(replies.text, m.keys.Values, |m.log|);
    SortedIs(replies.text, m.keys.Values, |m.log|);
    OnceInOrder(replies.text, ks);
    LinkedInTurn(replies, m, ks, key);
    if key in ks {
      var p: nat :| p < |ks| && ks[p] == key;
      PlaceIsAhead(replies.text, m.keys.Values, ks, p);
      EachOnce(replies.text, ks, p);
      InTurnIsAnswered(replies, m.calls, ks, p);
    } else {
      NotInTurn(replies, m.calls, ks, key);
    }
  }

  lemma {:induction false} NotInTurn(replies: Replies, calls: nat, ks: seq<nat>, key: nat)
    requires key !in ks
    ensures !AnsweredInTurn(replies, calls, ks, key)
    decreases |ks|
  {
    if ks != [] {
      NotInTurn(replies, calls + 1, ks[1..], key);
    }
  }

  lemma {:induction false} EachOnce(text: nat -> string, ks: seq<nat>, p: nat)
    requires InTextOrder(text, ks) && p < |ks|
    ensures forall i: nat :: i < p ==> ks[i] != ks[p]
  {
    TextOrder(text(ks[p]), text(ks[p]));
  }

  lemma {:induction false} OnceInOrder(text: nat -> string, ks: seq<nat>)
    requires InTextOrder(text, ks)
    ensures NoneTwice(ks)
    decreases |ks|
  {
    if ks != [] {
      TextOrder(text(ks[0]), text(ks[0]));
      assert forall i: nat :: i < |ks| - 1 ==> ks[1..][i] == ks[i + 1];
      OnceInOrder(text, ks[1..]);
    }
  }

  /** What linking starts from in a pass: the issues are there and the statuses are moved. */
  function BeforeLinking(replies: Replies, m: Mirror, v: View): Mirror
  {
    SyncStatuses(replies, EnsureIssues(replies, m.(failed := false), v.items), v.items, v.named)
  }

  /** This pass links issue `key`: the pull request is open and not marked as linked, the pass
      was not aborted before, and it gets to this issue. */
  ghost predicate LinksIn(replies: Replies, m: Mirror, v: View, key: nat)
  {
    var b := BeforeLinking(replies, m, v);
    && v.items != [] && v.pullRequest && PullRequest !in m.marks && !b.failed
    && key in b.keys.Values && GetsTo(replies, b.calls, b.keys.Values, key)
  }

  lemma {:induction false} PassLinks(replies: Replies, m: Mirror, v: View, key: nat)
    requires Right(m) && KeysApart(replies.text)
    ensures Links(Reconcile(replies, m, v).log, key) == Links(m.log, key) + if LinksIn(replies, m, v, key) then 1 else 0
  {
    if v.items != [] {
      var start, b := m.(failed := false), BeforeLinking(replies, m, v);
      EnsureLinksNone(replies, start, v.items, key);
      SyncLinksNone(replies, EnsureIssues(replies, start, v.items), v.items, v.named, key);
      EnsureAllKeeps(replies, start, v.items);
      SyncKeeps(replies, EnsureIssues(replies, start, v.items), v.items, v.named);
      assert forall k :: k in b.keys.Values ==> k < |b.log|;
      CommentsLink(replies, b, v, key);
    }
  }

  lemma {:induction false} CommentsLink(replies: Replies, b: Mirror, v: View, key: nat)
    requires KeysApart(replies.text) && forall k :: k in b.keys.Values ==> k < |b.log|
    ensures Links(Comments(replies, b, v).log, key) == Links(b.log, key)
      + if v.pullRequest && PullRequest !in b.marks && !b.failed && key in b.keys.Values && GetsTo(replies, b.calls, b.keys.Values, key) then 1 else 0
  {
    if !b.failed {
      LinkedWhereReached(replies, b, key);
    }
    var linked := if b.failed then b else LinkPullRequest(replies, b, v.pullRequest);
    ReviewsLinkNone(replies, linked, v.items, v.reviews, key);
    FailuresLinkNone(replies, CommentReviews(replies, linked, v.items, v.reviews), v.items, key);
  }

  /** The mirror before pass `i`. */
  function At(replies: Replies, views: seq<View>, i: nat): Mirror
    requires i <= |views|
  {
    Passes(replies, views[..i])
  }

  ghost predicate LinksAt(replies: Replies, views: seq<View>, i: nat, key: nat)
    requires i < |views|
  {
    LinksIn(replies, At(replies, views, i), views[i], key)
  }

  lemma {:induction false} NextPass(replies: Replies, views: seq<View>, i: nat)
    requires i < |views|
    ensures At(replies, views, i + 1) == Reconcile(replies, At(replies, views, i), views[i])
  {
    assert views[..i + 1][..i] == views[..i];
  }

  lemma {:induction false} MarksStay(replies: Replies, views: seq<View>, h: nat, i: nat)
    requires h <= i <= |views|
    ensures At(replies, views, h).marks <= At(replies, views, i).marks
    decreases i
  {
    if h < i {
      MarksStay(replies, views, h, i - 1);
      NextPass(replies, views, i - 1);
      PassesKeep(replies, views[..i - 1]);
      PassKeeps(replies, At(replies, views, i - 1), views[i - 1]);
    }
  }

  /** One pass linked the issue and was aborted before that was marked, and a later one linked it. */
  ghost predicate LinkedAgain(replies: Replies, views: seq<View>, h: nat, i: nat, key: nat)
  {
    h < i < |views| && LinksAt(replies, views, h, key) && PullRequest !in At(replies, views, h + 1).marks && LinksAt(replies, views, i, key)
  }

  ghost predicate LinkedBefore(replies: Replies, views: seq<View>, n: nat, key: nat)
    requires n <= |views|
  {
    exists h: nat :: h < n && LinksAt(replies, views, h, key)
  }

  ghost predicate LinkedAgainBefore(replies: Replies, views: seq<View>, n: nat, key: nat)
  {
    exists h: nat, i: nat :: i < n && LinkedAgain(replies, views, h, i, key)
  }

  /** Another pass links it again exactly when it links it and an earlier one had: that one
      was aborted, or the mark would be there. */
  lemma {:induction false} OnePassMore(replies: Replies, views: seq<View>, n: nat, key: nat)
    requires n < |views|
    ensures LinkedBefore(replies, views, n + 1, key) <==> LinkedBefore(replies, views, n, key) || LinksAt(replies, views, n, key)
    ensures LinkedAgainBefore(replies, views, n + 1, key)
      <==> LinkedAgainBefore(replies, views, n, key) || (LinkedBefore(replies, views, n, key) && LinksAt(replies, views, n, key))
  {
    if LinkedBefore(replies, views, n, key) && LinksAt(replies, views, n, key) {
      var h: nat :| h < n && LinksAt(replies, views, h, key);
      MarksStay(replies, views, h + 1, n);
      assert LinkedAgain(replies, views, h, n, key);
    }
  }

  lemma {:induction false} LinkedSoFar(replies: Replies, views: seq<View>, n: nat, key: nat)
    requires n <= |views| && KeysApart(replies.text)
    ensures 1 <= Links(At(replies, views, n).log, key) <==> LinkedBefore(replies, views, n, key)
    ensures 2 <= Links(At(replies, views, n).log, key) <==> LinkedAgainBefore(replies, views, n, key)
    decreases n
  {
    if n == 0 {
      assert views[..0] == [];
    } else {
      LinkedSoFar(replies, views, n - 1, key);
      OnePassMore(replies, views, n - 1, key);
      NextPass(replies, views, n - 1);
      PassesKeep(replies, views[..n - 1]);
      PassLinks(replies, At(replies, views, n - 1), views[n - 1], key);
    }
  }

  /** Over any passes, an issue is linked a second time exactly when a pass had linked it and
      was aborted before the mark was set, and a later pass gets to it again. */
  lemma {:induction false} LinkedTwiceExactly(replies: Replies, views: seq<View>, key: nat)
    requires KeysApart(replies.text)
    ensures 2 <= Links(Passes(replies, views).log, key) <==> exists h: nat, i: nat :: LinkedAgain(replies, views, h, i, key)
  {
    LinkedSoFar(replies, views, |views|, key);
    assert views[..|views|] == views;
  }

  /** A key for each issue, one letter longer each time. */
  function KeyText(n: nat): (t: string)
    ensures |t| == n + 1
  {
    seq(n + 1, i => 'A')
  }

  lemma {:induction false} TextsApart()
    ensures KeysApart(KeyText) && TextBefore(KeyText(0), KeyText(1)) && !TextBefore(KeyText(1), KeyText(0)) && !TextBefore(KeyText(0), KeyText(0))
  {
  }

  lemma {:induction false} NoneAhead(keys: set<nat>)
    requires keys == {0, 1}
    ensures Ahead(KeyText, keys, 0) == {}
  {
    TextsApart();
  }

  lemma {:induction false} TwoSorted(keys: set<nat>)
    requires keys == {0, 1}
    ensures Sorted(KeyText, keys, 2) == [0, 1]
  {
    TextsApart();
    assert Sorted(KeyText, keys, 1) == Insert(KeyText, 0, []) == [0];
    assert Insert(KeyText, 1, [0]) == [0] + Insert(KeyText, 1, []) by {
      assert [0][1..] == [];
    }
  }

  /** Two items, and a pull request to link on their issues. */
  const TWO_ITEMS := View([Item(0, None, Done, None), Item(1, None, Done, None)], true, [], false, {})

  /** Jira refuses the second comment, and nothing else. */
  function SecondRefused(): Replies
  {
    Replies((n: nat) => if n == 3 then Refused else Replied, KeyText)
  }

  lemma {:induction false} TwoItemsReady(m: Mirror)
    requires m.keys == map[0 := 0, 1 := 1] && m.statuses == map[0 := Done, 1 := Done]
    ensures BeforeLinking(SecondRefused(), m, TWO_ITEMS) == m.(failed := false)
  {
    NothingIssued(SecondRefused(), m.(failed := false), TWO_ITEMS.items);
    NothingMoved(SecondRefused(), m.(failed := false), TWO_ITEMS.items, TWO_ITEMS.named);
  }

  /** The first pass is aborted at the second issue, and the next one links the first again. */
  lemma {:induction false} LinkPostedTwice()
    ensures LinkedAgain(SecondRefused(), [TWO_ITEMS, TWO_ITEMS], 0, 1, 0)
    ensures 2 <= Links(Passes(SecondRefused(), [TWO_ITEMS, TWO_ITEMS]).log, 0)
  {
    var replies, v, views := SecondRefused(), TWO_ITEMS, [TWO_ITEMS, TWO_ITEMS];
    var b := FirstReady();
    assert views[..0] == [] && At(replies, views, 0) == NO_MIRROR;
    assert b.keys[0] == 0 && b.keys[1] == 1;
    TextsApart();
    NoneAhead(b.keys.Values);
    assert LinksAt(replies, views, 0, 0);
    NextPass(replies, views, 0);
    FirstAborted(b);
    var m := At(replies, views, 1);
    TwoItemsReady(m);
    assert m.keys[0] == 0;
    assert LinksAt(replies, views, 1, 0);
    assert LinkedAgain(replies, views, 0, 1, 0);
    LinkedTwiceExactly(replies, views, 0);
  }

  lemma {:induction false} FirstReady() returns (b: Mirror)
    ensures b == BeforeLinking(SecondRefused(), NO_MIRROR, TWO_ITEMS)
    ensures b.keys == map[0 := 0, 1 := 1] && b.statuses == map[0 := Done, 1 := Done] && b.calls == 2 && |b.log| == 2 && b.marks == {} && !b.failed
  {
    var replies, v := SecondRefused(), TWO_ITEMS;
    assert v.items[1..] == [v.items[1]] && v.items[1..][1..] == [];
    var one := EnsureIssue(replies, NO_MIRROR, v.items[0]);
    var two := EnsureIssue(replies, one, v.items[1]);
    assert EnsureIssues(replies, NO_MIRROR, v.items) == EnsureIssues(replies, one, v.items[1..]) == EnsureIssues(replies, two, []);
    var noted := Move(replies, two, v.items[0], v.named);
    b := Move(replies, noted, v.items[1], v.named);
    assert SyncStatuses(replies, two, v.items, v.named) == SyncStatuses(replies, noted, v.items[1..], v.named)
        == SyncStatuses(replies, b, [], v.named);
    assert two.keys == map[0 := 0, 1 := 1];
  }

  lemma {:induction false} FirstAborted(b: Mirror)
    requires b == BeforeLinking(SecondRefused(), NO_MIRROR, TWO_ITEMS)
    requires b.keys == map[0 := 0, 1 := 1] && b.statuses == map[0 := Done, 1 := Done] && b.calls == 2 && |b.log| == 2 && b.marks == {} && !b.failed
    ensures var n := Reconcile(SecondRefused(), NO_MIRROR, TWO_ITEMS);
      n.keys == b.keys && n.statuses == b.statuses && n.calls == 4 && n.marks == {}
  {
    var replies := SecondRefused();
    assert b.keys[0] == 0 && b.keys[1] == 1;
    var one := Call(replies, b, Commented(0, PullRequest));
    var two := Call(replies, one, Commented(1, PullRequest));
    TwoSorted(b.keys.Values);
    assert LinkIssues(replies, b, [0, 1]) == LinkIssues(replies, one, [1]) == LinkIssues(replies, two, []) == two by {
      assert [0, 1][1..] == [1] && [1][1..] == [];
    }
    assert two.failed;
  }

  // -- what a pass asks for -----------------------------------------------------------------

  /** An item's epic or story is listed before it, or has its issue. */
  ghost predicate ParentsFirst(items: seq<Item>, keys: map<nat, nat>)
  {
    forall i :: 0 <= i < |items| && items[i].parent.Some? ==>
      items[i].parent.value in keys || exists h :: 0 <= h < i && items[h].id == items[i].parent.value
  }

  /** An issue is made for an item, under the key of its epic or story. */
  ghost predicate IssueRight(keys: map<nat, nat>, items: seq<Item>, e: Effect)
  {
    && e.Created?
    && (exists i :: 0 <= i < |items| && items[i].id == e.item && items[i].parent == e.within)
    && (if e.within.None? then e.parentKey.None? else e.within.value in keys && e.parentKey == Some(keys[e.within.value]))
  }

  /** An issue is moved to the status its item has. */
  ghost predicate MoveRight(keys: map<nat, nat>, items: seq<Item>, named: set<Status>, e: Effect)
  {
    e.Moved? && e.status in named && exists i :: 0 <= i < |items| && KeyIs(keys, Some(items[i].id), e.key) && items[i].status == e.status
  }

  ghost predicate KeyIs(keys: map<nat, nat>, item: Option<nat>, key: nat)
  {
    item.Some? && item.value in keys && keys[item.value] == key
  }

  /** A comment is on the issue it is about. */
  ghost predicate CommentRight(keys: map<nat, nat>, v: View, e: Effect)
  {
    && e.Commented?
    && match e.mark
       case PullRequest => v.pullRequest && e.key in keys.Values
       case Reviewed(phase, round) => Review(phase, round, true) in v.reviews && KeyIs(keys, TaskOf(v.items, phase), e.key)
       case FailedHere(item) => v.jobFailed && KeyIs(keys, Some(item), e.key) && exists i :: 0 <= i < |v.items| && v.items[i].id == item && v.items[i].status == Failed
  }

  ghost predicate AskedRight(keys: map<nat, nat>, v: View, e: Effect)
  {
    IssueRight(keys, v.items, e) || MoveRight(keys, v.items, v.named, e) || CommentRight(keys, v, e)
  }

  /** What was asked from place `from` of the log on. */
  ghost predicate AllRight(keys: map<nat, nat>, v: View, log: seq<Sent>, from: nat)
  {
    forall k: nat :: from <= k < |log| ==> AskedRight(keys, v, log[k].effect)
  }

  ghost predicate FirstTask(items: seq<Item>, phase: nat, i: nat)
  {
    i < |items| && items[i].phase == Some(phase) && forall h :: 0 <= h < i ==> items[h].phase != Some(phase)
  }

  /** The task of a phase is the first there is. */
  lemma {:induction false} TaskOfIs(items: seq<Item>, phase: nat)
    ensures match TaskOf(items, phase)
      case None => forall i :: 0 <= i < |items| ==> items[i].phase != Some(phase)
      case Some(id) => exists i :: 0 <= i < |items| && FirstTask(items, phase, i) && items[i].id == id
  {
    if items != [] && items[0].phase == Some(phase) {
      assert FirstTask(items, phase, 0);
    } else if items != [] {
      var rest := items[1..];
      TaskOfIs(rest, phase);
      assert forall h :: 0 < h < |items| ==> items[h] == rest[h - 1];
      if TaskOf(items, phase).Some? {
        var i :| 0 <= i < |rest| && FirstTask(rest, phase, i) && rest[i].id == TaskOf(items, phase).value;
        assert FirstTask(items, phase, i + 1);
      }
    }
  }

  lemma {:induction false} IssueAsked(replies: Replies, m: Mirror, v: View, i: nat)
    requires !m.failed && i < |v.items| && ParentsFirst(v.items[i..], m.keys)
    ensures var n := EnsureIssue(replies, m, v.items[i]);
      && m.log <= n.log && (forall id :: id in m.keys ==> id in n.keys && n.keys[id] == m.keys[id])
      && (!n.failed ==> ParentsFirst(v.items[i + 1..], n.keys))
      && forall k: nat :: |m.log| <= k < |n.log| ==> IssueRight(m.keys, v.items, n.log[k].effect)
  {
    var n, items := EnsureIssue(replies, m, v.items[i]), v.items[i..];
    assert items[0] == v.items[i];
    if !n.failed {
      var rest := v.items[i + 1..];
      forall h | 0 <= h < |rest| && rest[h].parent.Some?
        ensures rest[h].parent.value in n.keys || exists g :: 0 <= g < h && rest[g].id == rest[h].parent.value
      {
        assert items[h + 1] == rest[h];
        if rest[h].parent.value !in n.keys {
          var g :| 0 <= g < h + 1 && items[g].id == items[h + 1].parent.value;
          assert g != 0;
          assert rest[g - 1] == items[g];
        }
      }
    }
  }

  lemma {:induction false} IssueStays(keys: map<nat, nat>, more: map<nat, nat>, items: seq<Item>, e: Effect)
    requires IssueRight(keys, items, e) && forall id :: id in keys ==> id in more && more[id] == keys[id]
    ensures IssueRight(more, items, e)
  {
  }

  lemma {:induction false} IssuesAsked(replies: Replies, m: Mirror, v: View, i: nat)
    requires !m.failed && i <= |v.items| && ParentsFirst(v.items[i..], m.keys)
    ensures var n := EnsureIssues(replies, m, v.items[i..]);
      && m.log <= n.log && (forall id :: id in m.keys ==> id in n.keys && n.keys[id] == m.keys[id])
      && forall k: nat :: |m.log| <= k < |n.log| ==> IssueRight(n.keys, v.items, n.log[k].effect)
    decreases |v.items| - i
  {
    if i < |v.items| {
      var one := EnsureIssue(replies, m, v.items[i]);
      IssueAsked(replies, m, v, i);
      assert v.items[i..][0] == v.items[i] && v.items[i..][1..] == v.items[i + 1..];
      var n := EnsureIssues(replies, m, v.items[i..]);
      if one.failed {
        assert n == one;
      } else {
        IssuesAsked(replies, one, v, i + 1);
      }
      forall k: nat | |m.log| <= k < |n.log| ensures IssueRight(n.keys, v.items, n.log[k].effect) {
        if k < |one.log| {
          assert n.log[k] == one.log[k];
          IssueStays(m.keys, n.keys, v.items, one.log[k].effect);
        }
      }
    }
  }

  lemma {:induction false} MovesAsked(replies: Replies, m: Mirror, v: View, i: nat)
    requires i <= |v.items|
    ensures var n := SyncStatuses(replies, m, v.items[i..], v.named);
      && m.log <= n.log && n.keys == m.keys
      && forall k: nat :: |m.log| <= k < |n.log| ==> MoveRight(n.keys, v.items, v.named, n.log[k].effect)
    decreases |v.items| - i
  {
    if i < |v.items| && !m.failed {
      assert v.items[i..][0] == v.items[i] && v.items[i..][1..] == v.items[i + 1..];
      var one := Move(replies, m, v.items[i], v.named);
      MovesAsked(replies, one, v, i + 1);
    }
  }

  lemma {:induction false} LinksAsked(replies: Replies, m: Mirror, ks: seq<nat>)
    ensures var n := LinkIssues(replies, m, ks);
      && m.log <= n.log && n.keys == m.keys
      && forall k: nat :: |m.log| <= k < |n.log| ==> n.log[k].effect.Commented? && n.log[k].effect.mark == PullRequest && n.log[k].effect.key in ks
    decreases |ks|
  {
    if ks != [] && !m.failed {
      LinksAsked(replies, Call(replies, m, Commented(ks[0], PullRequest)), ks[1..]);
    }
  }

  lemma {:induction false} InsertFrom(text: nat -> string, key: nat, ks: seq<nat>)
    ensures forall k :: k in Insert(text, key, ks) ==> k == key || k in ks
  {
    if ks != [] && !TextBefore(text(key), text(ks[0])) {
      InsertFrom(text, key, ks[1..]);
    }
  }

  lemma {:induction false} SortedFrom(text: nat -> string, keys: set<nat>, limit: nat)
    ensures forall k :: k in Sorted(text, keys, limit) ==> k in keys
  {
    if limit != 0 {
      SortedFrom(text, keys, limit - 1);
      InsertFrom(text, limit - 1, Sorted(text, keys, limit - 1));
    }
  }

  lemma {:induction false} PullRequestAsked(replies: Replies, m: Mirror, v: View)
    ensures var n := LinkPullRequest(replies, m, v.pullRequest);
      && m.log <= n.log && n.keys == m.keys
      && forall k: nat :: |m.log| <= k < |n.log| ==> CommentRight(n.keys, v, n.log[k].effect)
  {
    var ks := Sorted(replies.text, m.keys.Values, |m.log|);
    SortedFrom(replies.text, m.keys.Values, |m.log|);
    LinksAsked(replies, m, ks);
  }

  lemma {:induction false} ReviewsAsked(replies: Replies, m: Mirror, v: View, i: nat)
    requires i <= |v.reviews|
    ensures var n := CommentReviews(replies, m, v.items, v.reviews[i..]);
      && m.log <= n.log && n.keys == m.keys
      && forall k: nat :: |m.log| <= k < |n.log| ==> CommentRight(n.keys, v, n.log[k].effect)
    decreases |v.reviews| - i
  {
    if i < |v.reviews| && !m.failed {
      assert v.reviews[i..][0] == v.reviews[i] && v.reviews[i..][1..] == v.reviews[i + 1..];
      ReviewsAsked(replies, CommentReview(replies, m, v.items, v.reviews[i]), v, i + 1);
    }
  }

  lemma {:induction false} FailuresAsked(replies: Replies, m: Mirror, v: View, i: nat)
    requires i <= |v.items| && v.jobFailed
    ensures var n := CommentFailures(replies, m, v.items[i..]);
      && m.log <= n.log && n.keys == m.keys
      && forall k: nat :: |m.log| <= k < |n.log| ==> CommentRight(n.keys, v, n.log[k].effect)
    decreases |v.items| - i
  {
    if i < |v.items| && !m.failed {
      assert v.items[i..][0] == v.items[i] && v.items[i..][1..] == v.items[i + 1..];
      FailuresAsked(replies, CommentFailure(replies, m, v.items[i]), v, i + 1);
    }
  }

  lemma {:induction false} CommentsAsked(replies: Replies, m: Mirror, v: View)
    ensures var n := Comments(replies, m, v);
      && m.log <= n.log && n.keys == m.keys
      && forall k: nat :: |m.log| <= k < |n.log| ==> CommentRight(n.keys, v, n.log[k].effect)
  {
    PullRequestAsked(replies, m, v);
    var linked := if m.failed then m else LinkPullRequest(replies, m, v.pullRequest);
    assert v.reviews[0..] == v.reviews && v.items[0..] == v.items;
    ReviewsAsked(replies, linked, v, 0);
    if v.jobFailed {
      FailuresAsked(replies, CommentReviews(replies, linked, v.items, v.reviews), v, 0);
    }
  }

  /** Whatever a pass asks of Jira, the job says: an issue for an item that is there, under the issue
      of its epic or story; a move to the status the item has; and a comment on the issue it is
      about. What was done before stays in the log. */
  lemma {:induction false} PassAsksRight(replies: Replies, m: Mirror, v: View)
    requires ParentsFirst(v.items, m.keys)
    ensures var n := Reconcile(replies, m, v); m.log <= n.log && AllRight(n.keys, v, n.log, |m.log|)
  {
    if v.items != [] {
      var issued := EnsureIssues(replies, m.(failed := false), v.items);
      var moved := SyncStatuses(replies, issued, v.items, v.named);
      assert v.items[0..] == v.items;
      IssuesAsked(replies, m.(failed := false), v, 0);
      MovesAsked(replies, issued, v, 0);
      CommentsAsked(replies, moved, v);
      PhasesJoin(m, issued, moved, Reconcile(replies, m, v), v);
    }
  }

  lemma {:induction false} PhasesJoin(m: Mirror, issued: Mirror, moved: Mirror, n: Mirror, v: View)
    requires m.log <= issued.log <= moved.log <= n.log && n.keys == moved.keys == issued.keys
    requires forall k: nat :: |m.log| <= k < |issued.log| ==> IssueRight(n.keys, v.items, issued.log[k].effect)
    requires forall k: nat :: |issued.log| <= k < |moved.log| ==> MoveRight(n.keys, v.items, v.named, moved.log[k].effect)
    requires forall k: nat :: |moved.log| <= k < |n.log| ==> CommentRight(n.keys, v, n.log[k].effect)
    ensures AllRight(n.keys, v, n.log, |m.log|)
  {
    forall k: nat | |m.log| <= k < |n.log| ensures AskedRight(n.keys, v, n.log[k].effect) {
      if k < |issued.log| {
        assert n.log[k] == issued.log[k];
      } else if k < |moved.log| {
        assert n.log[k] == moved.log[k];
      }
    }
  }

  // -- the methods ----------------------------------------------------------------------

  class Sync {
    const replies: Replies
    var keys: map<nat, nat>
    var statuses: map<nat, Status>
    var marks: set<Mark>
    var calls: nat
    var log: seq<Sent>
    var failed: bool

    ghost function State(): Mirror
      reads this
    {
      Mirror(keys, statuses, marks, calls, log, failed)
    }

    constructor (replies: Replies)
      ensures this.replies == replies && State() == NO_MIRROR
    {
      this.replies := replies;
      keys, statuses, marks, calls, log, failed := map[], map[], {}, 0, [], false;
    }

    method Ask(effect: Effect)
      modifies this`calls, this`log, this`failed
      ensures State() == Call(replies, old(State()), effect)
    {
      var reply := replies.to(calls);
      calls := calls + 1;
      if reply != Refused {
        log := log + [Sent(effect, reply == Replied)];
      }
      if reply != Replied {
        failed := true;
      }
    }

    /** `_ensure_issues`. */
    method EnsureAll(items: seq<Item>)
      modifies this`keys, this`calls, this`log, this`failed
      ensures State() == EnsureIssues(replies, old(State()), items)
    {
      var i := 0;
      while i < |items| && !failed
        invariant i <= |items|
        invariant EnsureIssues(replies, State(), items[i..]) == EnsureIssues(replies, old(State()), items)
      {
        var item := items[i];
        if item.id !in keys {
          var place := |log|;
          var parentKey := if item.parent.Some? && item.parent.value in keys then Some(keys[item.parent.value]) else None;
          Ask(Created(item.id, item.parent, parentKey));
          if !failed {
            keys := keys[item.id := place];
          }
        }
        assert items[i..][1..] == items[i + 1..];
        i := i + 1;
      }
    }

    /** `_move`. */
    method MoveItem(item: Item, named: set<Status>)
      modifies this`statuses, this`calls, this`log, this`failed
      ensures State() == Move(replies, old(State()), item, named)
    {
      if item.id !in keys || (item.id in statuses && statuses[item.id] == item.status) {
        return;
      }
      statuses := statuses[item.id := item.status];
      if item.status in named {
        Ask(Moved(keys[item.id], item.status));
      }
    }

    /** `_sync_statuses`. */
    method SyncAll(items: seq<Item>, named: set<Status>)
      modifies this`statuses, this`calls, this`log, this`failed
      ensures State() == SyncStatuses(replies, old(State()), items, named)
    {
      var i := 0;
      while i < |items| && !failed
        invariant i <= |items|
        invariant SyncStatuses(replies, State(), items[i..], named) == SyncStatuses(replies, old(State()), items, named)
      {
        MoveItem(items[i], named);
        assert items[i..][1..] == items[i + 1..];
        i := i + 1;
      }
    }

    /** The link to the pull request, in `_one_shot_comments`. */
    method LinkAll(open: bool)
      requires !failed
      modifies this`marks, this`calls, this`log, this`failed
      ensures State() == LinkPullRequest(replies, old(State()), open)
    {
      if !open || PullRequest in marks {
        return;
      }
      var ks, i := Sorted(replies.text, keys.Values, |log|), 0;
      while i < |ks| && !failed
        invariant i <= |ks|
        invariant marks == old(marks) && keys == old(keys) && statuses == old(statuses)
        invariant LinkIssues(replies, State(), ks[i..]) == LinkIssues(replies, old(State()), ks)
      {
        Ask(Commented(ks[i], PullRequest));
        assert ks[i..][1..] == ks[i + 1..];
        i := i + 1;
      }
      if !failed {
        marks := marks + {PullRequest};
      }
    }

    method CommentOne(item: Option<nat>, mark: Mark)
      modifies this`marks, this`calls, this`log, this`failed
      ensures State() == CommentOnce(replies, old(State()), item, mark)
    {
      if mark in marks || item.None? || item.value !in keys {
        return;
      }
      Ask(Commented(keys[item.value], mark));
      if !failed {
        marks := marks + {mark};
      }
    }

    method CommentAllReviews(items: seq<Item>, reviews: seq<Review>)
      modifies this`marks, this`calls, this`log, this`failed
      ensures State() == CommentReviews(replies, old(State()), items, reviews)
    {
      var i := 0;
      while i < |reviews| && !failed
        invariant i <= |reviews|
        invariant CommentReviews(replies, State(), items, reviews[i..]) == CommentReviews(replies, old(State()), items, reviews)
      {
        var r := reviews[i];
        if r.blocking {
          CommentOne(TaskOf(items, r.phase), Reviewed(r.phase, r.round));
        }
        assert reviews[i..][1..] == reviews[i + 1..];
        i := i + 1;
      }
    }

    method CommentAllFailures(items: seq<Item>)
      modifies this`marks, this`calls, this`log, this`failed
      ensures State() == CommentFailures(replies, old(State()), items)
    {
      var i := 0;
      while i < |items| && !failed
        invariant i <= |items|
        invariant CommentFailures(replies, State(), items[i..]) == CommentFailures(replies, old(State()), items)
      {
        if items[i].status == Failed {
          CommentOne(Some(items[i].id), FailedHere(items[i].id));
        }
        assert items[i..][1..] == items[i + 1..];
        i := i + 1;
      }
    }

    /** `reconcile`; false when Jira failed it. */
    method Run(v: View) returns (ok: bool)
      modifies this
      ensures State() == Reconcile(replies, old(State()), v) && ok == !failed
    {
      failed := false;
      if v.items == [] {
        return true;
      }
      EnsureAll(v.items);
      SyncAll(v.items, v.named);
      if !failed {
        LinkAll(v.pullRequest);
      }
      CommentAllReviews(v.items, v.reviews);
      if v.jobFailed {
        CommentAllFailures(v.items);
      }
      return !failed;
    }
  }
}
