/**
 Phases written side by side touch no file together, however their plan was moved about
 since it was accepted (`_write_ahead`, slipwright/engine.py).

 The check of a plan has two phases that change one file depend on each other. What phases
 want of each other does not change when they are moved, so that holds of them to the end.
 */
module SideBySide {
  import opened Wrappers
  import opened Plan
  import opened Reordering
  import opened Job
  import opened Safety
  import opened Parking
  import opened Termination
  import opened Livelock
  import opened Runs
  import opened WriteAhead

  /** Phase `u` of the plan changes file `f`. */
  ghost predicate Changes(ps: seq<Phase>, u: nat, f: string)
  {
    exists n: nat :: Lists(ps, n, f) && At(ps, n).uid == u
  }

  /** Of two of the phases `among` that change one file, one wants the other. */
  ghost predicate FilesTied(ps: seq<Phase>, want: Wants, among: set<nat>)
  {
    forall u, v, f :: u in among && v in among && u != v && Changes(ps, u, f) && Changes(ps, v, f) ==>
      WantsDeep(want, u, v) || WantsDeep(want, v, u)
  }

  /** The phases a plan added behind the ones it kept. */
  ghost function Added(ps: seq<Phase>, kept: nat): set<nat>
  {
    AllOf(ps) - Before(ps, kept + 1)
  }

  // -- when the plan is accepted --------------------------------------------------------

  /** Every phase behind the kept ones wants what it needs of the others behind them. */
  ghost predicate WantsWhatItNeeds(ps: seq<Phase>, want: Wants, kept: nat)
  {
    forall n: nat :: kept < n <= |ps| ==> At(ps, n).uid in want && want[At(ps, n).uid] == WantsOf(ps, n)
  }

  lemma {:induction false} NeededBehindIsWanted(ps: seq<Phase>, built: nat, want: Wants, kept: nat, n: nat, d: nat)
    requires WantsWhatItNeeds(ps, want, kept) && BackwardFrom(ps, built) && built <= kept < d && kept < n && Needs(ps, built, n, d)
    ensures d < n && Wanted(want, At(ps, d).uid, At(ps, n).uid)
  {
    if At(ps, n).needs.Some? {
      assert States(ps, n, d);
    }
  }

  lemma {:induction false} DependedBehindIsWanted(ps: seq<Phase>, built: nat, want: Wants, kept: nat, n: nat, k: nat)
    requires WantsWhatItNeeds(ps, want, kept) && BackwardFrom(ps, built) && built <= kept < k && DependsOn(ps, built, n, k)
    ensures k <= n <= |ps| && WantsDeep(want, At(ps, k).uid, At(ps, n).uid)
    decreases n
  {
    DependsOnEarlier(ps, built, n, k);
    var u, v := At(ps, k).uid, At(ps, n).uid;
    if n == k {
      assert WantLinks(want, [u], u, u);
    } else {
      var d := DependsOnLast(ps, built, n, k);
      DependsOnEarlier(ps, built, d, k);
      NeededBehindIsWanted(ps, built, want, kept, n, d);
      DependedBehindIsWanted(ps, built, want, kept, d, k);
      var c :| WantLinks(want, c, u, At(ps, d).uid);
      assert WantLinks(want, c + [v], u, v);
    }
  }

  /** A plan that passed the check has its new phases tied by their files. */
  lemma {:induction false} SoundIsTied(ps: seq<Phase>, built: nat, nextObj: nat, want: Wants, kept: nat)
    requires Sound(ps, built) && built <= kept && Distinct(ps, nextObj) && WantsWhatItNeeds(ps, want, kept)
    ensures FilesTied(ps, want, Added(ps, kept))
  {
    forall u, v, f | u in Added(ps, kept) && v in Added(ps, kept) && u != v && Changes(ps, u, f) && Changes(ps, v, f)
      ensures WantsDeep(want, u, v) || WantsDeep(want, v, u)
    {
      var a: nat :| Lists(ps, a, f) && At(ps, a).uid == u;
      var b: nat :| Lists(ps, b, f) && At(ps, b).uid == v;
      BehindKept(ps, kept, a);
      BehindKept(ps, kept, b);
      if a < b {
        DependedBehindIsWanted(ps, built, want, kept, b, a);
      } else {
        DependedBehindIsWanted(ps, built, want, kept, a, b);
      }
    }
  }

  lemma {:induction false} BehindKept(ps: seq<Phase>, kept: nat, n: nat)
    requires 1 <= n <= |ps| && At(ps, n).uid in Added(ps, kept)
    ensures kept < n
  {
  }

  lemma {:induction false} NewPlanTied(j: Job, kept: nat, drafts: seq<Draft>, built: nat)
    requires PlanKept(j) && KeptRun(j, kept, drafts) == kept && built <= kept && Sound(Compose(j, kept, drafts), built)
    ensures var k := NewPlan(j, kept, drafts); FilesTied(k.phases, k.want, Added(k.phases, kept))
  {
    var ps := Compose(j, kept, drafts);
    ComposeDistinct(j, kept, drafts);
    forall n: nat | kept < n <= |ps|
      ensures At(ps, n).uid in ComposeWants(j, ps) && ComposeWants(j, ps)[At(ps, n).uid] == WantsOf(ps, n)
    {
      KeptIsWanted(j, kept, drafts, n);
      WantsLookup(j, ps, j.nextObj + |drafts|, n);
    }
    SoundIsTied(ps, built, j.nextObj + |drafts|, ComposeWants(j, ps), kept);
  }

  lemma {:induction false} PlanMadeTied(cfg: Config, j: Job, e: Event)
    requires Inv(cfg, j) && Trusted(j, e) && Next(cfg, j, e).Some? && MakesPlan(j, e, Next(cfg, j, e).value)
    ensures var k := Next(cfg, j, e).value; FilesTied(k.phases, k.want, Added(k.phases, KeptOf(j)))
  {
    var kept := KeptOf(j);
    if e.PlanWritten? {
      KeptWhole(j, e.drafts);
      NewPlanTied(j, kept, Whole(j.phases, kept, e.drafts), kept);
    } else {
      NewPlanTied(j, kept, e.edited, 0);
    }
  }

  // -- while it is built ----------------------------------------------------------------

  /** The phases change the same files, wherever they stand. */
  ghost predicate SameFiles(ps: seq<Phase>, qs: seq<Phase>)
  {
    forall u, f :: Changes(qs, u, f) ==> Changes(ps, u, f)
  }

  lemma {:induction false} MovedFiles(ps: seq<Phase>, m: seq<nat>, nextObj: nat)
    requires Permutes(m, |ps|) && Ranged(ps)
    ensures SameFiles(ps, Reordered(ps, m, nextObj))
  {
    var qs := Reordered(ps, m, nextObj);
    forall u, f | Changes(qs, u, f) ensures Changes(ps, u, f) {
      var k: nat :| Lists(qs, k, f) && At(qs, k).uid == u;
      ReorderKeepsPhase(ps, m, nextObj, Was(m, |ps|, k));
      assert Lists(ps, Was(m, |ps|, k), f);
    }
  }

  lemma {:induction false} ShuffledFiles(j: Job, later: set<nat>)
    requires Ranged(j.phases) && j.index <= |j.phases|
    ensures SameFiles(j.phases, MovePhases(j, later).phases)
  {
    MovesPermute(|j.phases|, j.index, later);
    MovedFiles(j.phases, MoveOf(j, later), j.nextObj);
  }

  lemma {:induction false} FilesTwice(ps: seq<Phase>, qs: seq<Phase>, rs: seq<Phase>)
    requires SameFiles(ps, qs) && SameFiles(qs, rs)
    ensures SameFiles(ps, rs)
  {
  }

  lemma {:induction false} TurnFiles(cfg: Config, j: Job, here: set<Platform>, screens: bool, fits: bool, answer: Answer)
    requires PlanKept(j) && j.state == Developing
    ensures SameFiles(j.phases, DevelopStep(cfg.filing, j, here, screens, fits, answer).phases)
  {
    if j.index < |j.phases| {
      DevelopIs(cfg.filing, j, PhaseTurn(here, screens, fits, answer));
      if j.index + 1 !in j.parked {
        var l := Ready(j, here);
        ShuffledFiles(j, Unbuildable(j.phases, j.index, here));
        ReadyLoose(j, here);
        AnswerFiles(cfg.filing, l, here, screens, answer);
        FilesTwice(j.phases, l.phases, TurnStep(cfg.filing, l, here, screens, answer).phases);
      }
    }
  }

  lemma {:induction false} AnswerFiles(filing: Filing, l: Job, here: set<Platform>, screens: bool, answer: Answer)
    requires Ranged(l.phases) && l.state == Developing && l.index < |l.phases|
    ensures SameFiles(l.phases, TurnStep(filing, l, here, screens, answer).phases)
  {
    var e := PhaseTurn(here, screens, false, answer);
    if Parks(l, e) {
      ParkOnlyFiles(filing, l, answer.why);
      ShuffledFiles(l, Needing(l.phases, l.index + 1));
    } else {
      NotParkedLeaves(filing, l, e);
    }
  }

  /** While the plan is the same one, its phases stay tied. */
  lemma {:induction false} StepKeepsTied(cfg: Config, j: Job, e: Event, among: set<nat>)
    requires Inv(cfg, j) && Trusted(j, e) && Next(cfg, j, e).Some? && Next(cfg, j, e).value.plan == j.plan
    requires FilesTied(j.phases, j.want, among)
    ensures FilesTied(Next(cfg, j, e).value.phases, Next(cfg, j, e).value.want, among)
  {
    StepKeeps(cfg, j, e);
    if e.PhaseTurn? {
      TurnFiles(cfg, j, e.here, e.screens, e.fits, e.answer);
    } else if e.PlanWritten? || e.PlanEdited? {
      SamePlanPhases(cfg, j, e);
    } else {
      PhasesLeft(cfg, j, e);
    }
  }

  lemma {:induction false} SamePlanPhases(cfg: Config, j: Job, e: Event)
    requires (e.PlanWritten? || e.PlanEdited?) && Next(cfg, j, e).Some? && Next(cfg, j, e).value.plan == j.plan
    ensures Next(cfg, j, e).value.phases == j.phases
  {
  }

  lemma {:induction false} RunKeepsTied(cfg: Config, js: seq<Job>, es: seq<Event>, i: nat, l: nat, among: set<nat>)
    requires Run(cfg, js, es) && i <= l < |js| && (forall s: nat :: i <= s <= l ==> js[s].plan == js[i].plan)
    requires FilesTied(js[i].phases, js[i].want, among)
    ensures FilesTied(js[l].phases, js[l].want, among)
    decreases l
  {
    if i < l {
      RunKeepsTied(cfg, js, es, i, l - 1, among);
      assert js[l].plan == js[l - 1].plan;
      StepInRunKeepsTied(cfg, js, es, l - 1, among);
    }
  }

  lemma {:induction false} StepInRunKeepsTied(cfg: Config, js: seq<Job>, es: seq<Event>, i: nat, among: set<nat>)
    requires Run(cfg, js, es) && i < |es| && js[i + 1].plan == js[i].plan && FilesTied(js[i].phases, js[i].want, among)
    ensures FilesTied(js[i + 1].phases, js[i + 1].want, among)
  {
    RunKeeps(cfg, js, es, i);
    assert StepAt(cfg, js, es, i);
    StepKeepsTied(cfg, js[i], es[i], among);
  }

  /** A phase that is started ahead changes no file that a phase before it and not built yet
      changes: the one in turn, or another started ahead. */
  lemma {:induction false} TiedShareNothing(cfg: Config, j: Job, among: set<nat>, allowed: set<nat>, a: nat, b: nat, f: string)
    requires Inv(cfg, j) && FilesTied(j.phases, j.want, among) && j.index < a < b && Startable(j.phases, j.index, allowed, b)
    requires At(j.phases, a).uid in among && At(j.phases, b).uid in among && Lists(j.phases, a, f)
    ensures !Lists(j.phases, b, f)
  {
    var u, v := At(j.phases, a).uid, At(j.phases, b).uid;
    if Lists(j.phases, b, f) {
      assert Changes(j.phases, u, f) && Changes(j.phases, v, f);
      LaterNotWanted(j, a, b);
      NotWantedAhead(j, allowed, a, b);
    }
  }

  lemma {:induction false} NotWantedAhead(j: Job, allowed: set<nat>, a: nat, b: nat)
    requires PlanKept(j) && j.index < a < b && Startable(j.phases, j.index, allowed, b)
    ensures !WantsDeep(j.want, At(j.phases, a).uid, At(j.phases, b).uid)
  {
    forall c | WantLinks(j.want, c, At(j.phases, a).uid, At(j.phases, b).uid) ensures false {
      WantedIsNeeded(j.phases, j.nextObj, j.want, c, At(j.phases, a).uid, b);
      var x: nat :| 1 <= x <= b && At(j.phases, x).uid == At(j.phases, a).uid && DependsOn(j.phases, 0, b, x);
      SamePhase(j.phases, j.nextObj, x, a);
      StartableDependsOnBuilt(j.phases, j.index, allowed, b, a);
    }
  }

  /** From the step that made a plan on, the phases it added stay tied by their files. */
  lemma {:induction false} TiedOverRuns(cfg: Config, js: seq<Job>, es: seq<Event>, i: nat, l: nat)
    requires Run(cfg, js, es) && i < l < |js| && MakesPlan(js[i], es[i], js[i + 1])
    requires forall s: nat :: i < s <= l ==> js[s].plan == js[i + 1].plan
    ensures FilesTied(js[l].phases, js[l].want, Added(js[i + 1].phases, KeptOf(js[i])))
  {
    MadeTied(cfg, js, es, i);
    RunKeepsTied(cfg, js, es, i + 1, l, Added(js[i + 1].phases, KeptOf(js[i])));
  }

  lemma {:induction false} MadeTied(cfg: Config, js: seq<Job>, es: seq<Event>, i: nat)
    requires Run(cfg, js, es) && i < |es| && MakesPlan(js[i], es[i], js[i + 1])
    ensures FilesTied(js[i + 1].phases, js[i + 1].want, Added(js[i + 1].phases, KeptOf(js[i])))
  {
    RunKeeps(cfg, js, es, i);
    assert StepAt(cfg, js, es, i);
    PlanMadeTied(cfg, js[i], es[i]);
  }

  /** Over every run, however the phases were parked and moved since their plan was made: a
      phase that may be started ahead shares no file with one before it that is not built,
      both of them being phases that plan added. */
  lemma {:induction false} SideBySideOverRuns(cfg: Config, js: seq<Job>, es: seq<Event>, i: nat, l: nat, allowed: set<nat>, a: nat, b: nat, f: string)
    requires Run(cfg, js, es) && i < l < |js| && MakesPlan(js[i], es[i], js[i + 1])
    requires forall s: nat :: i < s <= l ==> js[s].plan == js[i + 1].plan
    requires js[l].index < a < b && Startable(js[l].phases, js[l].index, allowed, b) && Lists(js[l].phases, a, f)
    requires At(js[l].phases, a).uid in Added(js[i + 1].phases, KeptOf(js[i])) && At(js[l].phases, b).uid in Added(js[i + 1].phases, KeptOf(js[i]))
    ensures !Lists(js[l].phases, b, f)
  {
    TiedOverRuns(cfg, js, es, i, l);
    RunKeeps(cfg, js, es, l);
    TiedShareNothing(cfg, js[l], Added(js[i + 1].phases, KeptOf(js[i])), allowed, a, b, f);
  }
}
