/**
 One call of a role, with its retries (`_call_with_retries`, slipwright/engine.py): how often
 it is asked, how long it waits, and what the answer that comes back says it cost.
 */
module Retries {
  import opened Wrappers

  datatype Kind = Timeout | ProviderError | MalformedOutput | Truncated | Refused

  /** The tokens a vendor reports, either count of which may be missing. */
  datatype Usage = Usage(input: Option<nat>, output: Option<nat>)

  datatype Call = Call(ok: bool, error: Option<Kind>, usage: Option<Usage>)

  datatype Tokens = Tokens(input: nat, output: nat)

  /** How often a truncated answer is asked for in a smaller part. */
  const STEPS := 3

  predicate Retryable(k: Kind)
  {
    k == Timeout || k == ProviderError || k == MalformedOutput
  }

  datatype Verdict = Smaller | Again | Over

  /** What follows attempt number `attempt`, after `cut` smaller parts were asked for. */
  function After(call: Call, attempt: nat, cut: nat, retries: nat, takesParts: bool): Verdict
  {
    if call.error == Some(Truncated) && takesParts && cut < STEPS then Smaller
    else if call.ok || call.error.None? || !Retryable(call.error.value) || retries < attempt then Over
    else Again
  }

  // -- what the attempts come to --------------------------------------------------------

  /** The tokens of the first `n` attempts; None while no vendor has said any. */
  function Burned(calls: nat -> Call, n: nat): Option<Tokens>
  {
    if n == 0 then None
    else
      var before := Burned(calls, n - 1);
      match calls(n).usage
      case None => before
      case Some(u) =>
        var b := if before.Some? then before.value else Tokens(0, 0);
        Some(Tokens(b.input + OrZero(u.input), b.output + OrZero(u.output)))
  }

  /** Attempts of the first `n` that timed out and said nothing of what they cost. */
  function Silent(calls: nat -> Call, n: nat): nat
  {
    if n == 0 then 0
    else Silent(calls, n - 1) + if calls(n).error == Some(Timeout) && calls(n).usage.None? then 1 else 0
  }

  /** How many of the first `n` attempts were followed by asking for a smaller part. */
  function Cut(calls: nat -> Call, takesParts: bool, n: nat): (c: nat)
    ensures c <= STEPS
  {
    if n == 0 then 0
    else
      var c := Cut(calls, takesParts, n - 1);
      if calls(n).error == Some(Truncated) && takesParts && c < STEPS then c + 1 else c
  }

  function VerdictAt(calls: nat -> Call, retries: nat, takesParts: bool, n: nat): Verdict
    requires 1 <= n
  {
    After(calls(n), n, Cut(calls, takesParts, n - 1), retries, takesParts)
  }

  /** Attempt `n` is made: every one before it was followed by another. */
  ghost predicate Made(calls: nat -> Call, retries: nat, takesParts: bool, n: nat)
  {
    forall i: nat :: 1 <= i < n ==> VerdictAt(calls, retries, takesParts, i) != Over
  }

  function Pow2(n: nat): (p: nat)
    ensures 1 <= p
  {
    if n == 0 then 1 else 2 * Pow2(n - 1)
  }

  /** What was waited after the first `n` attempts, in units of the first wait. */
  function Waited(calls: nat -> Call, retries: nat, takesParts: bool, n: nat): nat
  {
    if n == 0 then 0
    else Waited(calls, retries, takesParts, n - 1) + if VerdictAt(calls, retries, takesParts, n) == Again then Pow2(n - 1) else 0
  }

  // -- the bounds -----------------------------------------------------------------------

  /** Attempts past the retries are only ever made to ask for a smaller part. */
  lemma {:induction false} PastRetriesAreCuts(calls: nat -> Call, retries: nat, takesParts: bool, n: nat)
    requires Made(calls, retries, takesParts, n + 1)
    ensures n <= retries + Cut(calls, takesParts, n)
  {
    if n != 0 {
      PastRetriesAreCuts(calls, retries, takesParts, n - 1);
      assert VerdictAt(calls, retries, takesParts, n) != Over;
    }
  }

  /** It is asked no more than `retries + 1` times, and once more for each smaller part. */
  lemma {:induction false} AttemptsBounded(calls: nat -> Call, retries: nat, takesParts: bool, n: nat)
    requires 1 <= n && Made(calls, retries, takesParts, n)
    ensures n <= retries + 1 + STEPS
  {
    PastRetriesAreCuts(calls, retries, takesParts, n - 1);
  }

  lemma {:induction false} WaitsBounded(calls: nat -> Call, retries: nat, takesParts: bool, n: nat)
    ensures Waited(calls, retries, takesParts, n) + 1 <= Pow2(if n < retries then n else retries)
  {
    if n != 0 {
      WaitsBounded(calls, retries, takesParts, n - 1);
    }
  }

  /** It is over exactly with an answer, with an error no retry helps, or when neither a retry nor
      a smaller part is left. */
  lemma {:induction false} OverExactly(calls: nat -> Call, retries: nat, takesParts: bool, n: nat)
    requires 1 <= n
    ensures var call := calls(n);
      VerdictAt(calls, retries, takesParts, n) == Over <==>
        match call.error
        case None => true
        case Some(Truncated) => !takesParts || Cut(calls, takesParts, n - 1) == STEPS
        case Some(Refused) => true
        case Some(_) => call.ok || retries < n
  {
  }

  /** The waits double: `n` retries in a row have waited 2^n - 1 times the first. */
  lemma {:induction false} WaitsDouble(calls: nat -> Call, retries: nat, takesParts: bool, n: nat)
    requires forall i: nat :: 1 <= i <= n ==> VerdictAt(calls, retries, takesParts, i) == Again
    ensures Waited(calls, retries, takesParts, n) == Pow2(n) - 1
  {
    if n != 0 {
      WaitsDouble(calls, retries, takesParts, n - 1);
    }
  }

  /** The attempts that timed out and said nothing, of the first `n`. */
  function SilentOnes(calls: nat -> Call, n: nat): set<nat>
  {
    set i: nat | 1 <= i <= n && calls(i).error == Some(Timeout) && calls(i).usage.None?
  }

  lemma {:induction false} SilentCounts(calls: nat -> Call, n: nat)
    ensures Silent(calls, n) == |SilentOnes(calls, n)|
  {
    if n == 0 {
      assert SilentOnes(calls, 0) == {};
    } else {
      SilentCounts(calls, n - 1);
      var before := SilentOnes(calls, n - 1);
      assert SilentOnes(calls, n) == before + if calls(n).error == Some(Timeout) && calls(n).usage.None? then {n} else {};
    }
  }

  /** It says nothing of tokens exactly when no vendor did. */
  lemma {:induction false} BurnedKnown(calls: nat -> Call, n: nat)
    ensures Burned(calls, n).None? <==> forall i: nat :: 1 <= i <= n ==> calls(i).usage.None?
  {
    if n != 0 {
      BurnedKnown(calls, n - 1);
    }
  }

  function SumTo(f: nat -> nat, n: nat): nat
  {
    if n == 0 then 0 else SumTo(f, n - 1) + f(n)
  }

  function InputOf(call: Call): nat
  {
    if call.usage.Some? then OrZero(call.usage.value.input) else 0
  }

  function OutputOf(call: Call): nat
  {
    if call.usage.Some? then OrZero(call.usage.value.output) else 0
  }

  /** What it says is what all the attempts reported together, each count for itself. */
  lemma {:induction false} BurnedIsTheSum(calls: nat -> Call, n: nat)
    ensures Burned(calls, n).Some? ==>
      Burned(calls, n).value == Tokens(SumTo(i => InputOf(calls(i)), n), SumTo(i => OutputOf(calls(i)), n))
    ensures Burned(calls, n).None? ==> SumTo(i => InputOf(calls(i)), n) == SumTo(i => OutputOf(calls(i)), n) == 0
  {
    if n != 0 {
      BurnedIsTheSum(calls, n - 1);
    }
  }

  // -- the call -------------------------------------------------------------------------

  /** How the call ended: answered or given up after `attempts`, or stopped before the next
      one, when the attempts made so far are not billed. */
  datatype Outcome =
    | Settled(call: Call, attempts: nat, billed: Option<Tokens>, unreported: nat)
    | Stopped(attempts: nat)

  /** What one attempt adds to the bill: its tokens, or that it said nothing of them. */
  method Tally(call: Call, before: Option<Tokens>, silent: nat) returns (burned: Option<Tokens>, unreported: nat)
    ensures unreported == silent + if call.error == Some(Timeout) && call.usage.None? then 1 else 0
    ensures call.usage.None? ==> burned == before
    ensures call.usage.Some? ==>
      burned == Some(Tokens((if before.Some? then before.value.input else 0) + OrZero(call.usage.value.input),
                            (if before.Some? then before.value.output else 0) + OrZero(call.usage.value.output)))
  {
    burned, unreported := before, silent;
    if call.error == Some(Timeout) && call.usage.None? {
      unreported := unreported + 1;
    }
    if call.usage.Some? {
      if burned.None? {
        burned := Some(Tokens(0, 0));
      }
      var u := call.usage.value;
      burned := Some(Tokens(burned.value.input + OrZero(u.input), burned.value.output + OrZero(u.output)));
    }
  }

  /** `_call_with_retries`; `slept` counts in units of the first wait. */
  method CallWithRetries(calls: nat -> Call, stopping: nat -> bool, retries: nat, takesParts: bool)
      returns (outcome: Outcome, slept: nat)
    ensures Made(calls, retries, takesParts, outcome.attempts)
    ensures outcome.Settled? ==>
      && 1 <= outcome.attempts <= retries + 1 + STEPS
      && outcome.call == calls(outcome.attempts) && VerdictAt(calls, retries, takesParts, outcome.attempts) == Over
      && outcome.billed == Burned(calls, outcome.attempts) && outcome.unreported == Silent(calls, outcome.attempts)
      && forall i: nat :: i < outcome.attempts ==> !stopping(i)
    ensures outcome.Stopped? ==> outcome.attempts <= retries + STEPS && stopping(outcome.attempts)
    ensures slept == Waited(calls, retries, takesParts, outcome.attempts) <= Pow2(retries) - 1
  {
    var attempt, truncations, unreported := 0, 0, 0;
    var burned: Option<Tokens> := None;
    slept := 0;
    while true
      invariant Made(calls, retries, takesParts, attempt + 1)
      invariant attempt <= retries + STEPS
      invariant truncations == Cut(calls, takesParts, attempt)
      invariant burned == Burned(calls, attempt) && unreported == Silent(calls, attempt)
      invariant slept == Waited(calls, retries, takesParts, attempt)
      invariant forall i: nat :: i < attempt ==> !stopping(i)
      decreases retries + 1 + STEPS - attempt
    {
      if stopping(attempt) {
        WaitedAtMost(calls, retries, takesParts, attempt);
        return Stopped(attempt), slept;
      }
      attempt := attempt + 1;
      var call := calls(attempt);
      burned, unreported := Tally(call, burned, unreported);
      var verdict := After(call, attempt, truncations, retries, takesParts);
      MadeSoFar(calls, retries, takesParts, attempt);
      match verdict
      case Smaller =>
        truncations := truncations + 1;
      case Over =>
        WaitedAtMost(calls, retries, takesParts, attempt);
        return Settled(call, attempt, burned, unreported), slept;
      case Again =>
        slept := slept + Pow2(attempt - 1);
    }
  }

  /** An attempt that is made is within bounds, and so is the next one if it is made. */
  lemma {:induction false} MadeSoFar(calls: nat -> Call, retries: nat, takesParts: bool, n: nat)
    requires 1 <= n && Made(calls, retries, takesParts, n)
    ensures n <= retries + 1 + STEPS
    ensures VerdictAt(calls, retries, takesParts, n) != Over ==> Made(calls, retries, takesParts, n + 1) && n <= retries + STEPS
  {
    AttemptsBounded(calls, retries, takesParts, n);
    if VerdictAt(calls, retries, takesParts, n) != Over {
      AttemptsBounded(calls, retries, takesParts, n + 1);
    }
  }

  lemma {:induction false} WaitedAtMost(calls: nat -> Call, retries: nat, takesParts: bool, n: nat)
    ensures Waited(calls, retries, takesParts, n) <= Pow2(retries) - 1
  {
    WaitsBounded(calls, retries, takesParts, n);
    MorePow2(if n < retries then n else retries, retries);
  }

  lemma {:induction false} MorePow2(a: nat, b: nat)
    requires a <= b
    ensures Pow2(a) <= Pow2(b)
  {
    if a < b {
      MorePow2(a, b - 1);
    }
  }
}
