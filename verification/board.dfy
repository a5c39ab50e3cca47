/**
 The board's statuses (slipwright/board.py): a task's, from where its development is, and
 what a story and an epic make of those under them.
 */
module Board {
  import opened Wrappers
  import opened Plan
  import opened Job
  import opened Safety
  import opened Outcomes

  datatype TaskStatus = TaskTodo | TaskInProgress | TaskDone | TaskFailed

  /** `plan_is_active`, of a development that has a backlog. */
  predicate PlanIsActive(s: State)
  {
    s != Created && s != Backlog && s != AwaitBacklog
  }

  /** `task_status` of the task that owns phase `phase`. */
  function StatusOf(j: Job, phase: nat): TaskStatus
    requires 1 <= phase
  {
    if !PlanIsActive(j.state) then TaskTodo
    else if j.state == Architecture || j.state == AwaitArchitecture then TaskTodo
    else if j.state == Done then TaskDone
    else if (j.state == Review || j.state == AwaitReview) && phase == j.index then TaskInProgress
    else if phase <= j.index then TaskDone
    else if phase == j.index + 1 && j.state == Failed then TaskFailed
    else if phase == j.index + 1 && (j.state == Developing || j.state == BuildGate) then TaskInProgress
    else if phase == j.index + 1 && j.state == AwaitDecision && (j.resume == Some(Developing) || j.resume == Some(BuildGate))
    then TaskInProgress
    else TaskTodo
  }

  /** Done up to some phase, at most one phase under way or failed after them, and nothing begun after that. */
  ghost predicate OneUnderWay(j: Job, count: nat, done: nat)
  {
    && done <= count
    && (forall p: nat :: 1 <= p <= done ==> StatusOf(j, p) == TaskDone)
    && (forall p: nat :: done + 1 < p <= count ==> StatusOf(j, p) == TaskTodo)
    && (done < count ==> StatusOf(j, done + 1) != TaskDone)
  }

  lemma {:induction false} StatusesInOrder(j: Job, count: nat)
    ensures exists done: nat :: OneUnderWay(j, count, done)
  {
    var begun := if count < j.index then count else j.index;
    var done :=
      if !PlanIsActive(j.state) || j.state == Architecture || j.state == AwaitArchitecture then 0
      else if j.state == Done then count
      else if (j.state == Review || j.state == AwaitReview) && 0 < j.index <= count then begun - 1
      else begun;
    assert OneUnderWay(j, count, done);
  }

  /** The board never shows a task as done whose phase was not built green or accepted as
      finished by hand. */
  lemma {:induction false} DoneIsSettled(cfg: Config, j: Job, phase: nat)
    requires Inv(cfg, j) && 1 <= phase <= |j.phases| && StatusOf(j, phase) == TaskDone
    ensures At(j.phases, phase).uid in Uids(j.log)
  {
    if j.state == State.Done {
      assert j.index == |j.phases|;
    }
  }

  /** The phase that is under review. */
  predicate Reviewed(j: Job, phase: nat)
  {
    (j.state == Review || j.state == AwaitReview) && phase == j.index
  }

  /** A development with an approved plan shows a task as done exactly when its phase is behind the
      cursor and not under review, and as under way exactly while that phase is written, built or
      reviewed; none has failed. */
  lemma {:induction false} StatusExactly(cfg: Config, j: Job, phase: nat)
    requires Inv(cfg, j) && PlannedState(j.state) && 1 <= phase <= |j.phases|
    ensures StatusOf(j, phase) == TaskDone <==> phase <= j.index && !Reviewed(j, phase)
    ensures StatusOf(j, phase) == TaskInProgress <==>
      Reviewed(j, phase) || (phase == j.index + 1 && (j.state == Developing || j.state == BuildGate))
    ensures StatusOf(j, phase) != TaskFailed
  {
    if j.state == State.Done {
      assert j.index == |j.phases|;
    }
  }

  /** Until its plan is approved nothing of it is begun. */
  lemma {:induction false} StatusBefore(j: Job, phase: nat)
    requires 1 <= phase && j.state in {Created, Backlog, AwaitBacklog, Architecture, AwaitArchitecture}
    ensures StatusOf(j, phase) == TaskTodo
  {
  }

  /** What a gate makes of the task of the phase in turn: done when it is settled and no review is
      ahead, failed when the gate failed, and under way where it goes on with the phase. */
  ghost predicate Follows(u: nat, k: Job, done: bool)
    requires 1 <= u
  {
    && (StatusOf(k, u) == TaskDone <==> done)
    && (k.state == State.Failed ==> StatusOf(k, u) == TaskFailed)
    && (k.state == Review || k.state == AwaitDecision || (k.state == Developing && !done) ==> StatusOf(k, u) == TaskInProgress)
  }

  /** Where a task goes while its phase does: under way at its gate, done once a build passed there,
      but for a review, and not before. */
  lemma {:induction false} StatusFollows(cfg: Config, j: Job, builds: Builds) returns (k: Job)
    requires Inv(cfg, j) && j.state == BuildGate
    ensures StatusOf(j, j.index + 1) == TaskInProgress && Next(cfg, j, GateRun(builds)) == Some(k)
    ensures Follows(j.index + 1, k, Passes(cfg, j, builds) && j.index + 1 !in j.unread && !builds.review)
  {
    PlainPlace(j);
    GateRuns(cfg, j, builds);
    GateReviewed(cfg, j, builds);
    k := GateStep(cfg, j, GateOf(cfg, j, builds));
    GateFollows(cfg, j, GateOf(cfg, j, builds));
  }

  lemma {:induction false} GateFollows(cfg: Config, j: Job, gate: Gate)
    requires j.state == BuildGate && j.index < |j.phases|
    ensures Follows(j.index + 1, GateStep(cfg, j, gate), gate.Green? && j.index + 1 !in j.unread && !gate.review)
  {
    var k := GateStep(cfg, j, gate);
    if gate.Green? && j.index + 1 !in j.unread {
      assert k.index == j.index + 1 && (k.state == if gate.review then Review else if k.index == |j.phases| then Qa else Developing);
      PassedShows(k, gate.review);
    } else {
      GateStaysAt(cfg, j, gate);
      StayedShows(k);
    }
  }

  lemma {:induction false} GateStaysAt(cfg: Config, j: Job, gate: Gate)
    requires j.index < |j.phases| && !(gate.Green? && j.index + 1 !in j.unread)
    ensures var k := GateStep(cfg, j, gate);
      && k.index == j.index && k.state in {AwaitBuilder, Developing, Architecture, AwaitDecision, State.Failed}
      && (k.state == AwaitDecision ==> k.resume == Some(Developing))
  {
  }

  lemma {:induction false} PassedShows(k: Job, review: bool)
    requires 0 < k.index && if review then k.state == Review else k.state == Qa || k.state == Developing
    ensures Follows(k.index, k, !review)
  {
  }

  lemma {:induction false} StayedShows(k: Job)
    requires k.state in {AwaitBuilder, Developing, Architecture, AwaitDecision, State.Failed} && (k.state == AwaitDecision ==> k.resume == Some(Developing))
    ensures Follows(k.index + 1, k, false)
  {
  }

  // -- stories and epics ----------------------------------------------------------------

  /** `rollup`. */
  function Rollup(statuses: seq<TaskStatus>): TaskStatus
  {
    if TaskFailed in statuses then TaskFailed
    else if statuses != [] && (forall s :: s in statuses ==> s == TaskDone) then TaskDone
    else if TaskInProgress in statuses || TaskDone in statuses then TaskInProgress
    else TaskTodo
  }

  /** What a story makes of its tasks: failed exactly when one failed, done exactly when all are and
      there are any, to do exactly when none is begun, and under way otherwise. */
  lemma {:induction false} RollupIs(statuses: seq<TaskStatus>)
    ensures Rollup(statuses) == TaskFailed <==> TaskFailed in statuses
    ensures Rollup(statuses) == TaskDone <==> statuses != [] && forall i :: 0 <= i < |statuses| ==> statuses[i] == TaskDone
    ensures Rollup(statuses) == TaskTodo <==> forall i :: 0 <= i < |statuses| ==> statuses[i] == TaskTodo
  {
    EachIn(statuses, TaskDone);
    EachIn(statuses, TaskTodo);
    if statuses != [] {
      assert statuses[0] in statuses;
    }
    forall i | 0 <= i < |statuses| ensures statuses[i] in statuses {
    }
  }

  lemma {:induction false} EachIn(statuses: seq<TaskStatus>, x: TaskStatus)
    ensures (forall s :: s in statuses ==> s == x) <==> forall i :: 0 <= i < |statuses| ==> statuses[i] == x
  {
    if forall s :: s in statuses ==> s == x {
      forall i | 0 <= i < |statuses| ensures statuses[i] == x {
        assert statuses[i] in statuses;
      }
    }
  }

  function Flat(groups: seq<seq<TaskStatus>>): seq<TaskStatus>
  {
    if groups == [] then [] else Flat(groups[..|groups| - 1]) + groups[|groups| - 1]
  }

  function Rolled(groups: seq<seq<TaskStatus>>): (rolled: seq<TaskStatus>)
    ensures |rolled| == |groups|
  {
    seq(|groups|, i requires 0 <= i < |groups| => Rollup(groups[i]))
  }

  lemma {:induction false} FlatHas(groups: seq<seq<TaskStatus>>, s: TaskStatus)
    ensures s in Flat(groups) <==> exists i :: 0 <= i < |groups| && s in groups[i]
    decreases |groups|
  {
    if groups != [] {
      var rest := groups[..|groups| - 1];
      FlatHas(rest, s);
      forall i | 0 <= i < |groups| && s in groups[i] ensures s in Flat(groups) {
        assert i < |rest| ==> groups[i] == rest[i];
      }
    }
  }

  lemma {:induction false} FlatEmpty(groups: seq<seq<TaskStatus>>)
    ensures Flat(groups) == [] <==> forall i :: 0 <= i < |groups| ==> groups[i] == []
    decreases |groups|
  {
    if groups != [] {
      var rest := groups[..|groups| - 1];
      FlatEmpty(rest);
      assert forall i :: 0 <= i < |rest| ==> rest[i] == groups[i];
      assert forall i :: 0 <= i < |groups| ==> i < |rest| || groups[i] == groups[|groups| - 1];
    }
  }

  lemma {:induction false} RolledHas(groups: seq<seq<TaskStatus>>, s: TaskStatus)
    ensures s in Rolled(groups) <==> exists i :: 0 <= i < |groups| && Rollup(groups[i]) == s
  {
    forall i | 0 <= i < |groups| ensures Rollup(groups[i]) in Rolled(groups) {
      assert Rolled(groups)[i] == Rollup(groups[i]);
    }
  }

  lemma {:induction false} RolledFailed(groups: seq<seq<TaskStatus>>)
    ensures TaskFailed in Rolled(groups) <==> TaskFailed in Flat(groups)
  {
    RolledHas(groups, TaskFailed);
    FlatHas(groups, TaskFailed);
  }

  /** All that is under it is done. */
  predicate AllDone(statuses: seq<TaskStatus>)
  {
    statuses != [] && forall s :: s in statuses ==> s == TaskDone
  }

  lemma {:induction false} RollupDone(g: seq<TaskStatus>)
    ensures Rollup(g) == TaskDone <==> AllDone(g)
  {
    if AllDone(g) {
      assert g[0] in g;
    }
  }

  lemma {:induction false} RolledAllDone(groups: seq<seq<TaskStatus>>)
    ensures AllDone(Rolled(groups)) <==> groups != [] && forall i :: 0 <= i < |groups| ==> AllDone(groups[i])
  {
    forall i | 0 <= i < |groups| ensures Rolled(groups)[i] == TaskDone <==> AllDone(groups[i]) {
      RollupDone(groups[i]);
    }
    forall i | 0 <= i < |groups| ensures Rolled(groups)[i] in Rolled(groups) {
    }
  }

  lemma {:induction false} FlatAllDone(groups: seq<seq<TaskStatus>>)
    requires forall i :: 0 <= i < |groups| ==> groups[i] != []
    ensures AllDone(Flat(groups)) <==> groups != [] && forall i :: 0 <= i < |groups| ==> AllDone(groups[i])
    decreases |groups|
  {
    if groups != [] {
      var rest, last := groups[..|groups| - 1], groups[|groups| - 1];
      FlatAllDone(rest);
      FlatEmpty(rest);
      JoinAllDone(Flat(rest), last);
      assert forall i :: 0 <= i < |rest| ==> rest[i] == groups[i];
      assert rest != [] ==> rest[0] != [];
    }
  }

  lemma {:induction false} JoinAllDone(a: seq<TaskStatus>, b: seq<TaskStatus>)
    requires b != []
    ensures AllDone(a + b) <==> (a == [] || AllDone(a)) && AllDone(b)
  {
    forall s ensures s in a + b <==> s in a || s in b {
    }
  }

  lemma {:induction false} RolledDone(groups: seq<seq<TaskStatus>>)
    ensures AllDone(Rolled(groups)) <==> AllDone(Flat(groups)) && forall i :: 0 <= i < |groups| ==> groups[i] != []
  {
    RolledAllDone(groups);
    if forall i :: 0 <= i < |groups| ==> groups[i] != [] {
      FlatAllDone(groups);
    }
  }

  predicate Begun(statuses: seq<TaskStatus>)
  {
    TaskInProgress in statuses || TaskDone in statuses
  }

  lemma {:induction false} RolledBegun(groups: seq<seq<TaskStatus>>)
    requires TaskFailed !in Flat(groups)
    ensures Begun(Rolled(groups)) <==> Begun(Flat(groups))
  {
    FlatHas(groups, TaskFailed);
    FlatHas(groups, TaskInProgress);
    FlatHas(groups, TaskDone);
    RolledHas(groups, TaskInProgress);
    RolledHas(groups, TaskDone);
    forall i | 0 <= i < |groups|
      ensures (Rollup(groups[i]) == TaskInProgress || Rollup(groups[i]) == TaskDone) <==> Begun(groups[i])
    {
      if groups[i] != [] {
        assert groups[i][0] in groups[i];
      }
    }
  }

  /** Rolling up by story and then by epic gives what rolling up all the tasks at once would,
      except where a story has no task and every task there is is done. */
  lemma {:induction false} NestedIsFlat(groups: seq<seq<TaskStatus>>)
    ensures Rollup(Rolled(groups)) == Rollup(Flat(groups)) <==>
      !(AllDone(Flat(groups)) && exists i :: 0 <= i < |groups| && groups[i] == [])
  {
    RolledFailed(groups);
    RolledDone(groups);
    assert AllDone(Flat(groups)) ==> TaskFailed !in Flat(groups);
    if TaskFailed !in Flat(groups) {
      RolledBegun(groups);
      if AllDone(Flat(groups)) {
        assert Flat(groups)[0] in Flat(groups);
      }
    }
  }
}
