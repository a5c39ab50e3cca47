/**
 What a development has spent (`_account`, `_bill_answers`, `answer`, slipwright/engine.py).

 The run accounts its own calls. A question is answered beside it, and what the answer cost
 waits on the message until whoever holds the job's lock bills it: read what is owed, save
 the spend, mark the messages. Costs are in micro-dollars.
 */
module Ledger {
  import opened Wrappers
  import Plan

  datatype Entry = Entry(attempts: nat, input: Option<nat>, output: Option<nat>, cost: Option<nat>)

  /** Where a logged call came from: a step of the run, or the answer to a question. */
  datatype Source = Step | Answer(id: nat)

  datatype Logged = Logged(source: Source, entry: Entry)

  datatype Spend = Spend(invocations: nat, tokens: nat, cost: nat, log: seq<Logged>)

  const NOTHING_SPENT := Spend(0, 0, 0, [])

  function TokensOf(e: Entry): nat
  {
    OrZero(e.input) + OrZero(e.output)
  }

  // -- the sums over the log ------------------------------------------------------------

  function Attempts(log: seq<Logged>): nat
  {
    if log == [] then 0 else Attempts(log[..|log| - 1]) + log[|log| - 1].entry.attempts
  }

  function Tokens(log: seq<Logged>): nat
  {
    if log == [] then 0 else Tokens(log[..|log| - 1]) + TokensOf(log[|log| - 1].entry)
  }

  function Cost(log: seq<Logged>): nat
  {
    if log == [] then 0 else Cost(log[..|log| - 1]) + OrZero(log[|log| - 1].entry.cost)
  }

  /** The totals are the sums over the call log. */
  ghost predicate Balanced(s: Spend)
  {
    s.invocations == Attempts(s.log) && s.tokens == Tokens(s.log) && s.cost == Cost(s.log)
  }

  /** How often the log has the answer `id`. */
  function Times(log: seq<Logged>, id: nat): nat
  {
    if log == [] then 0 else Times(log[..|log| - 1], id) + if log[|log| - 1].source == Answer(id) then 1 else 0
  }

  function Added(s: Spend, l: Logged): Spend
  {
    Spend(s.invocations + l.entry.attempts, s.tokens + TokensOf(l.entry), s.cost + OrZero(l.entry.cost), s.log + [l])
  }

  /** Answers that are there. */
  predicate Known(answers: seq<Entry>, owed: seq<nat>)
  {
    forall i: nat :: i < |owed| ==> owed[i] < |answers|
  }

  /** The answers numbered `owed`, added one after another. */
  function Billed(s: Spend, answers: seq<Entry>, owed: seq<nat>): Spend
    requires Known(answers, owed)
  {
    if owed == [] then s
    else Added(Billed(s, answers, owed[..|owed| - 1]), Logged(Answer(owed[|owed| - 1]), answers[owed[|owed| - 1]]))
  }

  lemma {:induction false} AddedBalanced(s: Spend, l: Logged)
    requires Balanced(s)
    ensures Balanced(Added(s, l))
    ensures forall id: nat :: Times(Added(s, l).log, id) == Times(s.log, id) + if l.source == Answer(id) then 1 else 0
  {
    assert (s.log + [l])[..|s.log|] == s.log;
  }

  lemma {:induction false} BilledBalanced(s: Spend, answers: seq<Entry>, owed: seq<nat>)
    requires Balanced(s) && Plan.Once(owed) && Known(answers, owed)
    ensures Balanced(Billed(s, answers, owed))
    ensures forall id: nat :: Times(Billed(s, answers, owed).log, id) == Times(s.log, id) + if id in owed then 1 else 0
  {
    if owed != [] {
      var rest, last := owed[..|owed| - 1], owed[|owed| - 1];
      assert owed == rest + [last];
      BilledBalanced(s, answers, rest);
      AddedBalanced(Billed(s, answers, rest), Logged(Answer(last), answers[last]));
      forall id: nat ensures (id in owed <==> id in rest || id == last) && last !in rest {
      }
    }
  }

  // -- the methods ----------------------------------------------------------------------

  /** The spend of a job, as its data holds it. */
  class JobSpend {
    var invocations: nat
    var tokensUsed: nat
    var cost: nat
    var log: seq<Logged>

    ghost function View(): Spend
      reads this
    {
      Spend(invocations, tokensUsed, cost, log)
    }

    ghost predicate Valid()
      reads this
    {
      Balanced(View())
    }

    constructor ()
      ensures Valid() && View() == NOTHING_SPENT
    {
      invocations, tokensUsed, cost, log := 0, 0, 0, [];
    }

    /** `_account`. */
    method Account(source: Source, e: Entry)
      requires Valid()
      modifies this
      ensures Valid() && View() == Added(old(View()), Logged(source, e))
    {
      AddedBalanced(View(), Logged(source, e));
      invocations := invocations + e.attempts;
      tokensUsed := tokensUsed + OrZero(e.input) + OrZero(e.output);
      if e.cost.Some? {
        cost := cost + e.cost.value;
      }
      log := log + [Logged(source, e)];
    }

    /** `_bill_answers`, once what is owed was read. */
    method BillAnswers(answers: seq<Entry>, owed: seq<nat>)
      requires Valid() && Known(answers, owed)
      modifies this
      ensures Valid() && View() == Billed(old(View()), answers, owed)
    {
      for i := 0 to |owed|
        invariant Valid() && View() == Billed(old(View()), answers, owed[..i])
      {
        assert owed[i] in owed;
        assert owed[..i + 1][..i] == owed[..i];
        Account(Answer(owed[i]), answers[owed[i]]);
      }
      assert owed[..|owed|] == owed;
    }
  }

  // -- the run and the answering threads, interleaved -----------------------------------

  /** How far whoever holds the lock is with billing. */
  datatype Biller = Idle | Read(stamp: nat, owed: seq<nat>) | Saved(owed: seq<nat>)

  /** `stamp` changes with every transition of the job: a save of a copy read before is refused. */
  datatype World = World(spend: Spend, stamp: nat, answers: seq<Entry>, billed: set<nat>, biller: Biller)

  const START := World(NOTHING_SPENT, 0, [], {}, Idle)

  datatype Event =
    | Called(entry: Entry)
    | Answered(answer: Entry)
    | Moved
    | BillingRead
    | BillingSaved
    | BillingMarked

  /** The answers not billed yet, oldest first. */
  function Unbilled(billed: set<nat>, count: nat): (owed: seq<nat>)
    ensures forall id: nat :: id in owed <==> id < count && id !in billed
    ensures Plan.Once(owed)
  {
    if count == 0 then []
    else Unbilled(billed, count - 1) + if count - 1 in billed then [] else [count - 1]
  }

  /** One step: the holder of the lock calls or bills, one thing at a time; anybody answers,
      and moves the job, at any time. */
  ghost function Next(w: World, e: Event): Option<World>
  {
    match e
    case Called(entry) => if w.biller == Idle then Some(w.(spend := Added(w.spend, Logged(Step, entry)))) else None
    case Answered(answer) => Some(w.(answers := w.answers + [answer]))
    case Moved => Some(w.(stamp := w.stamp + 1))
    case BillingRead =>
      if w.biller == Idle then Some(w.(biller := Read(w.stamp, Unbilled(w.billed, |w.answers|)))) else None
    case BillingSaved =>
      if w.biller.Read? && Known(w.answers, w.biller.owed) then
        Some(if w.biller.stamp == w.stamp
             then w.(spend := Billed(w.spend, w.answers, w.biller.owed), biller := Saved(w.biller.owed))
             else w.(biller := Idle))
      else None
    case BillingMarked =>
      if w.biller.Saved? then Some(w.(billed := w.billed + (set id: nat | id in w.biller.owed), biller := Idle)) else None
  }

  /** The answer is in the spend: marked, or saved and about to be marked. */
  ghost predicate InSpend(w: World, id: nat)
  {
    id in w.billed || (w.biller.Saved? && id in w.biller.owed)
  }

  /** Totals agree with the log, and every answer is in it once it is in the spend, and not before. */
  ghost predicate Conserved(w: World)
  {
    && Balanced(w.spend)
    && (forall id: nat :: Times(w.spend.log, id) == if InSpend(w, id) then 1 else 0)
    && (forall id: nat :: id in w.billed ==> id < |w.answers|)
    && (!w.biller.Idle? ==> Known(w.answers, w.biller.owed) && Plan.Once(w.biller.owed) && forall id: nat :: id in w.biller.owed ==> id !in w.billed)
  }

  lemma {:induction false} StepConserves(w: World, e: Event)
    requires Conserved(w) && Next(w, e).Some?
    ensures Conserved(Next(w, e).value)
  {
    if e.Called? {
      AddedBalanced(w.spend, Logged(Step, e.entry));
    } else if e.BillingRead? {
      var owed := Unbilled(w.billed, |w.answers|);
      assert forall i: nat :: i < |owed| ==> owed[i] in owed;
    } else if e.BillingSaved? {
      BilledBalanced(w.spend, w.answers, w.biller.owed);
    }
  }

  ghost predicate Follows(ws: seq<World>, es: seq<Event>, i: nat)
    requires |ws| == |es| + 1 && i < |es|
  {
    Next(ws[i], es[i]) == Some(ws[i + 1])
  }

  ghost predicate Run(ws: seq<World>, es: seq<Event>)
  {
    |ws| == |es| + 1 && ws[0] == START && forall i: nat :: i < |es| ==> Follows(ws, es, i)
  }

  /** Over every interleaving: the totals are the sums over the log, and while nobody is
      billing, every answer is either unbilled or in the log, once. */
  lemma {:induction false} EveryRunConserves(ws: seq<World>, es: seq<Event>, i: nat)
    requires Run(ws, es) && i < |ws|
    ensures Conserved(ws[i])
    ensures ws[i].biller.Idle? ==> forall id: nat :: id < |ws[i].answers| ==>
      (id in Unbilled(ws[i].billed, |ws[i].answers|) <==> Times(ws[i].spend.log, id) == 0) && Times(ws[i].spend.log, id) <= 1
    decreases i
  {
    if i != 0 {
      EveryRunConserves(ws, es, i - 1);
      assert Follows(ws, es, i - 1);
      StepConserves(ws[i - 1], es[i - 1]);
    }
  }

  // -- a crash --------------------------------------------------------------------------

  /** The process stops: whoever was billing is gone. */
  function Crashed(w: World): World
  {
    w.(biller := Idle)
  }

  /** A crash is harmless exactly when no answer is saved and not marked yet; one that is
      would be billed again. */
  lemma {:induction false} CrashConserves(w: World)
    requires Conserved(w)
    ensures Conserved(Crashed(w)) <==> !(w.biller.Saved? && w.biller.owed != [])
  {
    var c := Crashed(w);
    if w.biller.Saved? && w.biller.owed != [] {
      var id := w.biller.owed[0];
      assert id in w.biller.owed && id !in w.billed;
      assert Times(c.spend.log, id) == 1;
      assert !InSpend(c, id);
    } else {
      forall id: nat ensures InSpend(c, id) <==> InSpend(w, id) {
      }
    }
  }
}
