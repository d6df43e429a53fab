/** ExponentialBackoff and the retry budget of a message (exponentialbackoff.cpp, message.cpp). */
module Backoff {

  const NO_MAX_RETRY: int := -1
  const INT_MAX: int := 2147483647

  function Pow2(n: nat): (p: nat)
    ensures p >= 1
  {
    if n == 0 then 1 else 2 * Pow2(n - 1)
  }

  /** The fields of an ExponentialBackoff. */
  datatype State = State(retry: int, seedVal: nat, maxRetry: int)

  const FIRST_SEED: nat := 2

  function Fresh(maxRetry: int): State { State(0, FIRST_SEED, maxRetry) }

  predicate Wraps(b: State) { b.maxRetry != NO_MAX_RETRY && b.retry + 1 > b.maxRetry }

  /** The seed that the next delay is computed from. */
  function NextSeed(b: State): nat { if Wraps(b) then FIRST_SEED else b.seedVal }

  function AfterNext(b: State): State {
    State(if Wraps(b) then 0 else b.retry + 1, NextSeed(b) + 1, b.maxRetry)
  }

  function AfterReset(b: State): State { State(1, FIRST_SEED, b.maxRetry) }

  /** The random part of a delay. */
  predicate IsDelta(d: int) { 100 <= d <= 1000 }

  /** A delay for seed s: the truncated half of 2^s - 1, in seconds, and the random part. */
  function Delay(s: nat, d: int): int {
    (Pow2(s) - 1) / 2 * 1000 + d
  }

  lemma DelayForm(s: nat, d: int)
    requires s >= 1
    ensures Delay(s, d) == (Pow2(s - 1) - 1) * 1000 + d
  {
  }

  // ---------------------------------------------------------------- every sequence of calls

  datatype Op = Next(delta: int) | Reset

  function Run(b: State, ops: seq<Op>): State {
    if ops == [] then b
    else var c := Run(b, ops[..|ops| - 1]);
      match ops[|ops| - 1] case Next(_) => AfterNext(c) case Reset => AfterReset(c)
  }

  /** What the last call of a sequence that ends in `next` returns. */
  function LastDelay(b: State, ops: seq<Op>): int
    requires ops != [] && ops[|ops| - 1].Next?
  {
    Delay(NextSeed(Run(b, ops[..|ops| - 1])), ops[|ops| - 1].delta)
  }

  predicate Sane(b: State) {
    b.seedVal >= FIRST_SEED && b.retry >= 0 && (b.maxRetry != NO_MAX_RETRY ==> b.seedVal <= b.retry + 3)
  }

  lemma {:induction false} RunSane(maxRetry: int, ops: seq<Op>)
    ensures Sane(Run(Fresh(maxRetry), ops)) && Run(Fresh(maxRetry), ops).maxRetry == maxRetry
    decreases |ops|
  {
    if ops != [] { RunSane(maxRetry, ops[..|ops| - 1]); }
  }

  lemma {:induction false} Pow2Grows(m: nat, n: nat)
    requires m <= n
    ensures Pow2(m) <= Pow2(n)
    decreases n
  {
    if m < n { Pow2Grows(m, n - 1); }
  }

  /** With a cap M, no delay of any run exceeds 2^(M+1) seconds. */
  lemma CappedDelays(maxRetry: nat, ops: seq<Op>)
    requires ops != [] && ops[|ops| - 1].Next? && IsDelta(ops[|ops| - 1].delta)
    ensures 1000 <= LastDelay(Fresh(maxRetry), ops) <= Pow2(maxRetry + 1) * 1000
  {
    hide Pow2;
    var b := Run(Fresh(maxRetry), ops[..|ops| - 1]);
    RunSane(maxRetry, ops[..|ops| - 1]);
    var s, d := NextSeed(b), ops[|ops| - 1].delta;
    DelayForm(s, d);
    Pow2Grows(s - 1, maxRetry + 1);
    Pow2Grows(1, s - 1);
    assert Pow2(1) == 2 by { SmallPowers(); }
  }

  lemma SmallPowers()
    ensures Pow2(1) == 2 && Pow2(21) == 2097152 && Pow2(22) == 4194304
  {
    assert Pow2(4) == 16;
    assert Pow2(8) == 256;
    assert Pow2(12) == 4096;
    assert Pow2(16) == 65536;
    assert Pow2(20) == 1048576;
  }

  /** A cap of at most 20 keeps every delay of every run inside a 32-bit int. */
  lemma CapsThatFit(maxRetry: nat, ops: seq<Op>)
    requires maxRetry <= 20 && ops != [] && ops[|ops| - 1].Next? && IsDelta(ops[|ops| - 1].delta)
    ensures 0 < LastDelay(Fresh(maxRetry), ops) <= INT_MAX
  {
    hide Pow2, LastDelay;
    CappedDelays(maxRetry, ops);
    Pow2Grows(maxRetry + 1, 21);
    SmallPowers();
  }

  /** n calls of `next`, all with the same random part. */
  function Nexts(n: nat, d: int): seq<Op> { seq(n, _ => Next(d)) }

  lemma NextsLess(n: nat, d: int)
    requires n > 0
    ensures Nexts(n, d)[..n - 1] == Nexts(n - 1, d) && Nexts(n, d)[n - 1] == Next(d)
  {
  }

  /** Until a wrap, the k-th call uses seed k + 1. */
  lemma {:induction false} FreshCalls(maxRetry: int, n: nat, d: int)
    requires maxRetry == NO_MAX_RETRY || n <= maxRetry
    ensures Run(Fresh(maxRetry), Nexts(n, d)) == State(n, n + 2, maxRetry)
    decreases n
  {
    if n > 0 {
      FreshCalls(maxRetry, n - 1, d);
      NextsLess(n, d);
    }
  }

  /** After the first wrap, seeds run one ahead. */
  lemma {:induction false} WrappedCalls(maxRetry: nat, n: nat, d: int)
    requires n <= maxRetry
    ensures Run(Fresh(maxRetry), Nexts(maxRetry + 1 + n, d)) == State(n, n + 3, maxRetry)
    decreases n
  {
    NextsLess(maxRetry + 1 + n, d);
    if n == 0 { FreshCalls(maxRetry, maxRetry, d); } else { WrappedCalls(maxRetry, n - 1, d); }
  }

  /** After a reset, whatever came before it, n calls leave retry n + 1 and seed n + 2, so that with a cap M the M-th of
      them is the one that starts over. */
  lemma {:induction false} CallsAfterReset(maxRetry: int, ops: seq<Op>, n: nat, d: int)
    requires maxRetry == NO_MAX_RETRY || n < maxRetry || n == 0
    ensures var b := Run(Fresh(maxRetry), ops + [Reset] + Nexts(n, d));
      b == State(n + 1, n + 2, maxRetry) && (maxRetry != NO_MAX_RETRY ==> (Wraps(b) <==> n + 2 > maxRetry))
    decreases n
  {
    var all := ops + [Reset] + Nexts(n, d);
    if n == 0 {
      assert all == ops + [Reset] && all[..|all| - 1] == ops;
      RunSane(maxRetry, ops);
    } else {
      CallsAfterReset(maxRetry, ops, n - 1, d);
      assert all[..|all| - 1] == ops + [Reset] + Nexts(n - 1, d) && all[|all| - 1] == Next(d);
    }
  }

  /** Every cap above 20 has a run that overflows, whatever the random part. */
  lemma CapsThatOverflow(maxRetry: nat, d: int) returns (n: nat)
    requires maxRetry > 20 && IsDelta(d)
    ensures n > 0 && LastDelay(Fresh(maxRetry), Nexts(n, d)) > INT_MAX
  {
    hide Pow2;
    SmallPowers();
    DelayForm(23, d);
    if maxRetry > 21 {
      n := 22;
      NextsLess(22, d);
      FreshCalls(maxRetry, 21, d);
    } else {
      n := 43;
      NextsLess(43, d);
      WrappedCalls(21, 20, d);
    }
  }

  /** How many calls of `next` there are since the last reset, or since the start. */
  function Streak(ops: seq<Op>): nat {
    if ops == [] || ops[|ops| - 1].Reset? then 0 else 1 + Streak(ops[..|ops| - 1])
  }

  lemma {:induction false} UncappedSeed(ops: seq<Op>)
    ensures Run(Fresh(NO_MAX_RETRY), ops).seedVal == Streak(ops) + 2
    ensures Run(Fresh(NO_MAX_RETRY), ops).maxRetry == NO_MAX_RETRY
    decreases |ops|
  {
    if ops != [] { UncappedSeed(ops[..|ops| - 1]); }
  }

  /** Without a cap, in every sequence of calls and with any random parts, a delay fits a 32-bit int exactly
      when it is among the first 21 since the last reset. */
  lemma UncappedFitsExactly(ops: seq<Op>)
    requires ops != [] && ops[|ops| - 1].Next? && IsDelta(ops[|ops| - 1].delta)
    ensures LastDelay(Fresh(NO_MAX_RETRY), ops) <= INT_MAX <==> Streak(ops) <= 21
  {
    hide Pow2;
    var d := ops[|ops| - 1].delta;
    UncappedSeed(ops[..|ops| - 1]);
    DelayForm(Streak(ops) + 1, d);
    RetryDelay(Streak(ops), d);
  }

  /** Until a wrap, delays grow strictly, whatever the random parts. */
  lemma StrictlyIncreasing(b: State, d: int, e: int)
    requires Sane(b) && IsDelta(d) && IsDelta(e) && !Wraps(AfterNext(b))
    ensures Delay(NextSeed(b), d) < Delay(NextSeed(AfterNext(b)), e)
  {
    var s := NextSeed(b);
    DelayForm(s, d);
    DelayForm(s + 1, e);
    assert Pow2(s) == 2 * Pow2(s - 1);
    Pow2Grows(1, s - 1);
  }

  // ---------------------------------------------------------------- the objects

  class ExponentialBackoff {
    var retry: int
    var seedVal: nat
    var maxRetry: int

    ghost function Abs(): State
      reads this
    {
      State(retry, seedVal, maxRetry)
    }

    constructor (max_retry: int)
      ensures Abs() == Fresh(max_retry)
    {
      retry, seedVal, maxRetry := 0, 2, max_retry;
    }

    /** The random part is drawn by the caller. */
    method Next(random_delta: int) returns (next: int)
      requires Sane(Abs()) && IsDelta(random_delta)
      modifies this
      ensures Abs() == AfterNext(old(Abs())) && Sane(Abs())
      ensures next == (Pow2(NextSeed(old(Abs())) - 1) - 1) * 1000 + random_delta
    {
      retry := retry + 1;
      if maxRetry != NO_MAX_RETRY && retry > maxRetry {
        retry := 0;
        seedVal := 2;
      }
      var r := (Pow2(seedVal) - 1) / 2;
      next := r * 1000 + random_delta;
      DelayForm(seedVal, random_delta);
      seedVal := seedVal + 1;
    }

    method Reset()
      modifies this
      ensures Abs() == AfterReset(old(Abs())) && Sane(Abs())
    {
      retry := 1;
      seedVal := 2;
    }
  }

  /** The retry fields of a Message; its backoff has no cap. */
  class RetryBudget {
    var nRetry: nat
    const maxRetry: int
    const exboff: ExponentialBackoff

    /** After n calls, as many of them have drawn a delay as the budget allows. */
    ghost predicate Valid()
      reads this, exboff
    {
      && exboff.maxRetry == NO_MAX_RETRY
      && exboff.seedVal == Drawn(nRetry, maxRetry) + 2 && exboff.retry == Drawn(nRetry, maxRetry)
    }

    constructor (max_retry: int)
      ensures Valid() && nRetry == 0 && maxRetry == max_retry && fresh(exboff)
    {
      exboff := new ExponentialBackoff(NO_MAX_RETRY);
      nRetry, maxRetry := 0, max_retry;
    }

    /** -1 exactly when the budget is spent; otherwise the delay of this retry. */
    method GetNextRetryTimeout(random_delta: int) returns (r: int)
      requires Valid() && IsDelta(random_delta)
      modifies this, exboff
      ensures Valid() && nRetry == old(nRetry) + 1
      ensures r == -1 <==> maxRetry != -1 && nRetry > maxRetry
      ensures r != -1 ==> r == (Pow2(nRetry) - 1) * 1000 + random_delta
      ensures r != -1 ==> (r <= INT_MAX <==> nRetry <= 21)
    {
      nRetry := nRetry + 1;
      if maxRetry != -1 && nRetry > maxRetry {
        return -1;
      }
      hide Pow2;
      r := exboff.Next(random_delta);
      RetryDelay(nRetry, random_delta);
    }
  }

  /** How many of n retries have drawn a delay. */
  function Drawn(n: nat, maxRetry: int): nat {
    if maxRetry == -1 || n <= maxRetry then n else if maxRetry < 0 then 0 else maxRetry
  }

  lemma RetryDelay(k: nat, d: int)
    requires k > 0 && IsDelta(d)
    ensures (Pow2(k) - 1) * 1000 + d >= 100
    ensures (Pow2(k) - 1) * 1000 + d <= INT_MAX <==> k <= 21
  {
    hide Pow2;
    SmallPowers();
    if k <= 21 { Pow2Grows(k, 21); } else { Pow2Grows(22, k); }
  }
}
