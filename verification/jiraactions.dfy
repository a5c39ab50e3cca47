/**
 The Jira actions a role asks for, and the queue of those Jira failed (slipwright/jiraactions.py).

 Whether Jira takes a call is an input, one answer for each call. A client that is not there
 is None in the source; here `client` says whether it is.
 */
module JiraActions {
  import opened Wrappers

  /** What is asked of Jira: `outside` says whether an issue it names is outside the project. */
  datatype Action = Action(id: nat, outside: bool)

  /** An action Jira failed, waiting for another try. */
  datatype Queued = Queued(role: nat, key: nat, action: Action, attempts: nat)

  datatype Status = Finished | Refused | Waiting | Skipped

  datatype Outcome = Outcome(key: nat, action: Action, status: Status)

  const MAX_ATTEMPTS := 5

  /** What the job keeps: the queue and the keys of what was done; `asked` are the calls made. */
  datatype Desk = Desk(queue: seq<Queued>, done: seq<nat>, asked: seq<Action>)

  type Jira = nat -> bool

  // -- one action -----------------------------------------------------------------------

  /** `_execute`: done, or queued with the number of tries it had. */
  function Executed(client: bool, jira: Jira, d: Desk, role: nat, key: nat, action: Action, attempts: nat): (Desk, Outcome)
  {
    if !client then (d, Outcome(key, action, Refused))
    else
      var asked := d.(asked := d.asked + [action]);
      if jira(|d.asked|) then (asked.(done := d.done + [key]), Outcome(key, action, Finished))
      else (asked.(queue := d.queue + [Queued(role, key, action, attempts)]), Outcome(key, action, Waiting))
  }

  /** `run`, for one action a role returned. */
  function RunOne(client: bool, jira: Jira, d: Desk, role: nat, allowed: bool, key: nat, action: Action): (Desk, Outcome)
  {
    if !allowed then (d, Outcome(key, action, Refused))
    else if key in d.done then (d, Outcome(key, action, Skipped))
    else if action.outside then (d, Outcome(key, action, Refused))
    else Executed(client, jira, d, role, key, action, 1)
  }

  /** `run`: the outcomes of the actions, in their order. */
  function RunAll(client: bool, jira: Jira, d: Desk, role: nat, allowed: bool, keys: Action -> nat, actions: seq<Action>): (Desk, seq<Outcome>)
  {
    if actions == [] then (d, [])
    else
      var last := actions[|actions| - 1];
      var (before, outcomes) := RunAll(client, jira, d, role, allowed, keys, actions[..|actions| - 1]);
      var (after, outcome) := RunOne(client, jira, before, role, allowed, keys(last), last);
      (after, outcomes + [outcome])
  }

  /** `retry_queued`, for one entry: what fails its last try is given up and taken out again. */
  function RetryOne(client: bool, jira: Jira, d: Desk, entry: Queued): (Desk, Outcome)
  {
    var (after, outcome) := Executed(client, jira, d, entry.role, entry.key, entry.action, entry.attempts + 1);
    if outcome.status == Waiting && MAX_ATTEMPTS <= entry.attempts + 1 && after.queue != []
    then (after.(queue := after.queue[..|after.queue| - 1]), Outcome(entry.key, entry.action, Refused))
    else (after, outcome)
  }

  function RetryAll(client: bool, jira: Jira, d: Desk, queued: seq<Queued>): (Desk, seq<Outcome>)
  {
    if queued == [] then (d, [])
    else
      var (before, outcomes) := RetryAll(client, jira, d, queued[..|queued| - 1]);
      var (after, outcome) := RetryOne(client, jira, before, queued[|queued| - 1]);
      (after, outcomes + [outcome])
  }

  /** `retry_queued`. */
  function Retried(client: bool, jira: Jira, d: Desk): (Desk, seq<Outcome>)
  {
    RetryAll(client, jira, d.(queue := []), d.queue)
  }

  // -- what is kept ---------------------------------------------------------------------

  /** Every entry has been tried, and not too often; none names an issue outside the project. */
  ghost predicate QueueRight(d: Desk)
  {
    && (forall i :: 0 <= i < |d.queue| ==> 1 <= d.queue[i].attempts < MAX_ATTEMPTS && !d.queue[i].action.outside)
    && (forall i :: 0 <= i < |d.asked| ==> !d.asked[i].outside)
  }

  lemma {:induction false} RunKeeps(client: bool, jira: Jira, d: Desk, role: nat, allowed: bool, keys: Action -> nat, actions: seq<Action>)
    requires QueueRight(d)
    ensures QueueRight(RunAll(client, jira, d, role, allowed, keys, actions).0)
    ensures !allowed ==> RunAll(client, jira, d, role, allowed, keys, actions).0 == d
    ensures |RunAll(client, jira, d, role, allowed, keys, actions).1| == |actions|
    decreases |actions|
  {
    if actions != [] {
      RunKeeps(client, jira, d, role, allowed, keys, actions[..|actions| - 1]);
    }
  }

  /** What becomes of an action asked for, where `done` are the keys of what was done before. */
  ghost predicate AskedFate(client: bool, allowed: bool, done: seq<nat>, key: nat, action: Action, outcome: Outcome)
  {
    && outcome.key == key && outcome.action == action
    && (outcome.status == Skipped <==> allowed && key in done)
    && (outcome.status == Refused <==> !allowed || (key !in done && (action.outside || !client)))
  }

  /** The keys of what is done now, in order. */
  function DoneNow(outcomes: seq<Outcome>): seq<nat>
  {
    if outcomes == [] then []
    else
      var last := outcomes[|outcomes| - 1];
      DoneNow(outcomes[..|outcomes| - 1]) + if last.status == Finished then [last.key] else []
  }

  /** What Jira was asked for: what it took and what it failed. */
  function AskedNow(outcomes: seq<Outcome>): seq<Action>
  {
    if outcomes == [] then []
    else
      var last := outcomes[|outcomes| - 1];
      AskedNow(outcomes[..|outcomes| - 1]) + if last.status == Finished || last.status == Waiting then [last.action] else []
  }

  /** What waits in the queue now, each tried once. */
  function QueuedNow(role: nat, outcomes: seq<Outcome>): seq<Queued>
  {
    if outcomes == [] then []
    else
      var last := outcomes[|outcomes| - 1];
      QueuedNow(role, outcomes[..|outcomes| - 1]) + if last.status == Waiting then [Queued(role, last.key, last.action, 1)] else []
  }

  /** The desk after more outcomes. */
  ghost predicate Conserved(d: Desk, role: nat, outcomes: seq<Outcome>, after: Desk)
  {
    && after.done == d.done + DoneNow(outcomes) && after.asked == d.asked + AskedNow(outcomes)
    && after.queue == d.queue + QueuedNow(role, outcomes)
  }

  lemma {:induction false} RunOneConserves(client: bool, jira: Jira, d: Desk, role: nat, allowed: bool, key: nat, action: Action)
    ensures var (after, outcome) := RunOne(client, jira, d, role, allowed, key, action);
      AskedFate(client, allowed, d.done, key, action, outcome) && Conserved(d, role, [outcome], after)
  {
    var (after, outcome) := RunOne(client, jira, d, role, allowed, key, action);
    OneOutcome(role, outcome);
    assert d.done + [] == d.done && d.asked + [] == d.asked && d.queue + [] == d.queue;
  }

  lemma {:induction false} OneOutcome(role: nat, o: Outcome)
    ensures DoneNow([o]) == if o.status == Finished then [o.key] else []
    ensures AskedNow([o]) == if o.status == Finished || o.status == Waiting then [o.action] else []
    ensures QueuedNow(role, [o]) == if o.status == Waiting then [Queued(role, o.key, o.action, 1)] else []
  {
    assert [o][..0] == [];
    assert forall keys: seq<nat> :: [] + keys == keys;
    assert forall actions: seq<Action> :: [] + actions == actions;
    assert forall queue: seq<Queued> :: [] + queue == queue;
  }

  lemma {:induction false} OutcomesAdd(role: nat, some: seq<Outcome>, o: Outcome)
    ensures DoneNow(some + [o]) == DoneNow(some) + DoneNow([o])
    ensures AskedNow(some + [o]) == AskedNow(some) + AskedNow([o])
    ensures QueuedNow(role, some + [o]) == QueuedNow(role, some) + QueuedNow(role, [o])
  {
    OneOutcome(role, o);
    assert (some + [o])[..|some + [o]| - 1] == some;
  }

  lemma {:induction false} ConservedOneMore(d: Desk, role: nat, some: seq<Outcome>, before: Desk, o: Outcome, after: Desk)
    requires Conserved(d, role, some, before) && Conserved(before, role, [o], after)
    ensures Conserved(d, role, some + [o], after)
  {
    OutcomesAdd(role, some, o);
    JoinedTwice(d.done, DoneNow(some), DoneNow([o]));
    JoinedTwice(d.asked, AskedNow(some), AskedNow([o]));
    JoinedTwice(d.queue, QueuedNow(role, some), QueuedNow(role, [o]));
  }

  lemma {:induction false} JoinedTwice<T>(a: seq<T>, b: seq<T>, c: seq<T>)
    ensures (a + b) + c == a + (b + c)
  {
  }

  /** Actions asked for: one outcome each, in their order. One is skipped exactly when it was done
      before, and refused exactly when the role may not, it names an issue outside or no client is
      there; every other was asked of Jira, and is done or waits in the queue. */
  lemma {:induction false} RunConserves(client: bool, jira: Jira, d: Desk, role: nat, allowed: bool, keys: Action -> nat, actions: seq<Action>)
    ensures var (after, outcomes) := RunAll(client, jira, d, role, allowed, keys, actions);
      && |outcomes| == |actions| && Conserved(d, role, outcomes, after)
      && forall i :: 0 <= i < |actions| ==> AskedFate(client, allowed, d.done + DoneNow(outcomes[..i]), keys(actions[i]), actions[i], outcomes[i])
    decreases |actions|
  {
    if actions != [] {
      var rest, last := actions[..|actions| - 1], actions[|actions| - 1];
      RunConserves(client, jira, d, role, allowed, keys, rest);
      var (before, some) := RunAll(client, jira, d, role, allowed, keys, rest);
      var (after, outcome) := RunOne(client, jira, before, role, allowed, keys(last), last);
      RunOneConserves(client, jira, before, role, allowed, keys(last), last);
      ConservedOneMore(d, role, some, before, outcome, after);
      var outcomes := some + [outcome];
      forall i | 0 <= i < |actions|
        ensures AskedFate(client, allowed, d.done + DoneNow(outcomes[..i]), keys(actions[i]), actions[i], outcomes[i])
      {
        assert outcomes[..i] == some[..i];
        assert some[..|some|] == some;
      }
    }
  }

  /** What becomes of one entry: exactly one of done, waiting with one try more, and given up
      after its last. */
  ghost predicate CameTo(entry: Queued, outcome: Outcome, added: seq<Queued>, done: seq<nat>)
  {
    && outcome.key == entry.key && outcome.action == entry.action
    && match outcome.status
       case Finished => added == [] && done == [entry.key]
       case Waiting => added == [entry.(attempts := entry.attempts + 1)] && done == [] && entry.attempts + 1 < MAX_ATTEMPTS
       case Refused => added == [] && done == [] && MAX_ATTEMPTS <= entry.attempts + 1
       case Skipped => false
  }

  lemma {:induction false} RetryOneCameTo(jira: Jira, d: Desk, entry: Queued) returns (added: seq<Queued>, done: seq<nat>)
    ensures var (after, outcome) := RetryOne(true, jira, d, entry);
      && after.queue == d.queue + added && after.done == d.done + done && after.asked == d.asked + [entry.action]
      && CameTo(entry, outcome, added, done)
  {
    var (after, outcome) := RetryOne(true, jira, d, entry);
    added := after.queue[|d.queue|..];
    done := after.done[|d.done|..];
    var requeued := d.queue + [entry.(attempts := entry.attempts + 1)];
    assert requeued[..|requeued| - 1] == d.queue;
  }

  /** Which of the entries wait on, each with one try more. */
  function StillWaiting(queued: seq<Queued>, outcomes: seq<Outcome>): seq<Queued>
    requires |queued| == |outcomes|
  {
    if queued == [] then []
    else
      var last := |queued| - 1;
      StillWaiting(queued[..last], outcomes[..last])
      + if outcomes[last].status == Waiting then [queued[last].(attempts := queued[last].attempts + 1)] else []
  }

  /** The keys of those that are done now. */
  function NowDone(queued: seq<Queued>, outcomes: seq<Outcome>): seq<nat>
    requires |queued| == |outcomes|
  {
    if queued == [] then []
    else
      var last := |queued| - 1;
      NowDone(queued[..last], outcomes[..last]) + if outcomes[last].status == Finished then [queued[last].key] else []
  }

  function ActionsOf(queued: seq<Queued>): (actions: seq<Action>)
    ensures |actions| == |queued|
  {
    seq(|queued|, i requires 0 <= i < |queued| => queued[i].action)
  }

  /** The fate of the `i`-th entry. */
  ghost predicate Fate(entry: Queued, outcome: Outcome)
  {
    && outcome.key == entry.key && outcome.action == entry.action
    && (outcome.status == Finished
        || (outcome.status == Waiting && entry.attempts + 1 < MAX_ATTEMPTS)
        || (outcome.status == Refused && MAX_ATTEMPTS <= entry.attempts + 1))
  }

  /** The desk and the outcomes once these entries were tried, each in its turn. */
  ghost predicate AllTried(d: Desk, queued: seq<Queued>, outcomes: seq<Outcome>, after: Desk)
  {
    && |outcomes| == |queued| && (forall i :: 0 <= i < |queued| ==> Fate(queued[i], outcomes[i]))
    && after.queue == d.queue + StillWaiting(queued, outcomes)
    && after.done == d.done + NowDone(queued, outcomes)
    && after.asked == d.asked + ActionsOf(queued)
  }

  lemma {:induction false} OneMoreTried(d: Desk, rest: seq<Queued>, some: seq<Outcome>, before: Desk, last: Queued, outcome: Outcome, after: Desk,
      added: seq<Queued>, done: seq<nat>)
    requires AllTried(d, rest, some, before) && CameTo(last, outcome, added, done)
    requires after.queue == before.queue + added && after.done == before.done + done && after.asked == before.asked + [last.action]
    ensures AllTried(d, rest + [last], some + [outcome], after)
  {
    assert (rest + [last])[..|rest|] == rest && (some + [outcome])[..|some|] == some;
    assert ActionsOf(rest + [last]) == ActionsOf(rest) + [last.action];
  }

  /** Retrying the queue: every entry is tried once, in its order, and is then done, waiting
      in its place with one try more, or given up after its last; nothing else is in the queue. */
  lemma {:induction false} RetryConserves(jira: Jira, d: Desk, queued: seq<Queued>)
    ensures var (after, outcomes) := RetryAll(true, jira, d, queued); AllTried(d, queued, outcomes, after)
    decreases |queued|
  {
    if queued == [] {
      assert d.queue + [] == d.queue && d.done + [] == d.done && d.asked + [] == d.asked;
    } else {
      var rest, last := queued[..|queued| - 1], queued[|queued| - 1];
      RetryConserves(jira, d, rest);
      var (before, some) := RetryAll(true, jira, d, rest);
      var added, done := RetryOneCameTo(jira, before, last);
      var (after, outcome) := RetryOne(true, jira, before, last);
      OneMoreTried(d, rest, some, before, last, outcome, after, added, done);
      assert rest + [last] == queued;
    }
  }

  lemma {:induction false} StillWaitingRight(queued: seq<Queued>, outcomes: seq<Outcome>)
    requires |queued| == |outcomes| && forall i :: 0 <= i < |queued| ==> Fate(queued[i], outcomes[i]) && !queued[i].action.outside
    ensures forall i :: 0 <= i < |StillWaiting(queued, outcomes)| ==>
      1 <= StillWaiting(queued, outcomes)[i].attempts < MAX_ATTEMPTS && !StillWaiting(queued, outcomes)[i].action.outside
    decreases |queued|
  {
    if queued != [] {
      StillWaitingRight(queued[..|queued| - 1], outcomes[..|outcomes| - 1]);
    }
  }

  /** With a client there, no entry is ever tried too often, and nothing outside the project is asked. */
  lemma {:induction false} RetryKeeps(jira: Jira, d: Desk)
    requires QueueRight(d)
    ensures QueueRight(Retried(true, jira, d).0)
  {
    var (after, outcomes) := Retried(true, jira, d);
    RetryConserves(jira, d.(queue := []), d.queue);
    StillWaitingRight(d.queue, outcomes);
  }

  // -- how often an entry is tried ------------------------------------------------------

  /** The queue retried `n` times, with nothing new in between. */
  function Rounds(jira: Jira, d: Desk, n: nat): Desk
  {
    if n == 0 then d else Retried(true, jira, Rounds(jira, d, n - 1)).0
  }

  ghost predicate TriedOften(queue: seq<Queued>, n: nat)
  {
    forall i :: 0 <= i < |queue| ==> n <= queue[i].attempts
  }

  lemma {:induction false} WaitingTriedOnceMore(queued: seq<Queued>, outcomes: seq<Outcome>, n: nat)
    requires |queued| == |outcomes| && TriedOften(queued, n)
    ensures TriedOften(StillWaiting(queued, outcomes), n + 1)
    decreases |queued|
  {
    if queued != [] {
      WaitingTriedOnceMore(queued[..|queued| - 1], outcomes[..|outcomes| - 1], n);
    }
  }

  lemma {:induction false} RoundsKeep(jira: Jira, d: Desk, n: nat)
    requires QueueRight(d)
    ensures QueueRight(Rounds(jira, d, n)) && TriedOften(Rounds(jira, d, n).queue, n + 1)
  {
    if n != 0 {
      var before := Rounds(jira, d, n - 1);
      RoundsKeep(jira, d, n - 1);
      RetryKeeps(jira, before);
      RetryConserves(jira, before.(queue := []), before.queue);
      var outcomes := Retried(true, jira, before).1;
      WaitingTriedOnceMore(before.queue, outcomes, n);
      assert Rounds(jira, d, n).queue == StillWaiting(before.queue, outcomes);
    }
  }

  /** However Jira fails, no entry outlives its fifth try: four retries leave nothing that was queued. */
  lemma {:induction false} QueueEmpties(jira: Jira, d: Desk, n: nat)
    requires QueueRight(d) && MAX_ATTEMPTS - 1 <= n
    ensures Rounds(jira, d, n).queue == []
  {
    RoundsKeep(jira, d, n);
    var queue := Rounds(jira, d, n).queue;
    if queue != [] {
      OneNotTriedOut(queue);
    }
  }

  lemma {:induction false} OneNotTriedOut(queue: seq<Queued>)
    requires queue != [] && forall i :: 0 <= i < |queue| ==> queue[i].attempts < MAX_ATTEMPTS
    ensures !TriedOften(queue, MAX_ATTEMPTS)
  {
    assert queue[0].attempts < MAX_ATTEMPTS;
  }

  /** Without a client the whole queue is dropped: every entry is refused, tried or not. */
  lemma {:induction false} NoClientDropsAll(jira: Jira, d: Desk, queued: seq<Queued>)
    ensures var (after, outcomes) := RetryAll(false, jira, d, queued);
      after == d && |outcomes| == |queued| && forall i :: 0 <= i < |queued| ==> outcomes[i] == Outcome(queued[i].key, queued[i].action, Refused)
    decreases |queued|
  {
    if queued != [] {
      NoClientDropsAll(jira, d, queued[..|queued| - 1]);
    }
  }

  // -- the methods ----------------------------------------------------------------------

  class ActionRunner {
    const client: bool
    const jira: Jira
    var queue: seq<Queued>
    var done: seq<nat>
    var asked: seq<Action>

    ghost function View(): Desk
      reads this
    {
      Desk(queue, done, asked)
    }

    constructor (client: bool, jira: Jira)
      ensures this.client == client && this.jira == jira && View() == Desk([], [], []) && QueueRight(View())
    {
      this.client, this.jira := client, jira;
      queue, done, asked := [], [], [];
    }

    /** `_execute`. */
    method Execute(role: nat, key: nat, action: Action, attempts: nat) returns (outcome: Outcome)
      modifies this
      ensures (View(), outcome) == Executed(client, jira, old(View()), role, key, action, attempts)
    {
      if !client {
        return Outcome(key, action, Refused);
      }
      var taken := jira(|asked|);
      asked := asked + [action];
      if !taken {
        queue := queue + [Queued(role, key, action, attempts)];
        return Outcome(key, action, Waiting);
      }
      done := done + [key];
      return Outcome(key, action, Finished);
    }

    /** `run`. */
    method Run(role: nat, allowed: bool, keys: Action -> nat, actions: seq<Action>) returns (outcomes: seq<Outcome>)
      modifies this
      ensures (View(), outcomes) == RunAll(client, jira, old(View()), role, allowed, keys, actions)
    {
      outcomes := [];
      for i := 0 to |actions|
        invariant (View(), outcomes) == RunAll(client, jira, old(View()), role, allowed, keys, actions[..i])
      {
        assert actions[..i + 1][..i] == actions[..i];
        var action := actions[i];
        var key := keys(action);
        var outcome := Outcome(key, action, Refused);
        if allowed {
          if key in done {
            outcome := Outcome(key, action, Skipped);
          } else if !action.outside {
            outcome := Execute(role, key, action, 1);
          }
        }
        outcomes := outcomes + [outcome];
      }
      assert actions[..|actions|] == actions;
    }

    /** One entry tried again, and given up after its last try. */
    method RetryEntry(entry: Queued) returns (outcome: Outcome)
      modifies this
      ensures (View(), outcome) == RetryOne(client, jira, old(View()), entry)
    {
      outcome := Execute(entry.role, entry.key, entry.action, entry.attempts + 1);
      if outcome.status == Waiting && MAX_ATTEMPTS <= entry.attempts + 1 && queue != [] {
        queue := queue[..|queue| - 1];
        outcome := Outcome(entry.key, entry.action, Refused);
      }
    }

    /** `retry_queued`. */
    method RetryQueued() returns (outcomes: seq<Outcome>)
      modifies this
      ensures (View(), outcomes) == Retried(client, jira, old(View()))
    {
      var queued := queue;
      queue := [];
      outcomes := [];
      for i := 0 to |queued|
        invariant (View(), outcomes) == RetryAll(client, jira, old(View()).(queue := []), queued[..i])
      {
        assert queued[..i + 1][..i] == queued[..i];
        var outcome := RetryEntry(queued[i]);
        outcomes := outcomes + [outcome];
      }
      assert queued[..|queued|] == queued;
    }
  }
}
