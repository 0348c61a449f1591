/** Retries inside the circuit breaker (src/infrastructure/stellar/stellar-horizon.service.ts). */
module HorizonRetry {
  import opened Wrappers
  import opened Text
  import opened CircuitBreakers
  import opened Verifier

  const MAX_RETRIES: nat := 3

  const BREAKER_OPTIONS := Options(5, 30_000)

  /** What a call threw; `isError` is `instanceof Error`, `status` the response's status if it had one. */
  datatype HorizonError = HorizonError(isError: bool, circuitOpen: bool, message: string, status: Option<int>)

  function LowerChar(c: char): char {
    if 'A' <= c <= 'Z' then 'a' + (c - 'A') else c
  }

  predicate Mentions(message: string, word: string)
    requires word != ""
  {
    IndexOf(seq(|message|, i requires 0 <= i < |message| => LowerChar(message[i])), word) >= 0
  }

  predicate IsRetryable(err: HorizonError) {
    || !err.isError
    || Mentions(err.message, "timed out") || Mentions(err.message, "econnreset")
    || Mentions(err.message, "enotfound") || Mentions(err.message, "econnrefused")
    || (err.status.Some? && (err.status.value >= 500 || err.status.value == 429))
  }

  type CallResult<T> = Result<T, HorizonError>

  predicate Retries<T>(r: CallResult<T>) {
    r.Err? && !r.error.circuitOpen && IsRetryable(r.error)
  }

  /** `lower` is the letter `c` or its small form. */
  predicate SmallOf(c: char, lower: char) {
    if 'A' <= c <= 'Z' then c as int + 32 == lower as int else c == lower
  }

  predicate SaysAt(message: string, word: string, i: nat) {
    i + |word| <= |message| && forall j | 0 <= j < |word| :: SmallOf(message[i + j], word[j])
  }

  /** The word stands somewhere in the message, in letters of either case. */
  ghost predicate Says(message: string, word: string) {
    exists i :: SaysAt(message, word, i)
  }

  /** The failures that are tried again: timeouts, lost connections, server errors and rate limits. */
  ghost predicate WorthRetrying<T>(r: CallResult<T>) {
    && r.Err? && !r.error.circuitOpen
    && (|| !r.error.isError
        || Says(r.error.message, "timed out") || Says(r.error.message, "econnreset")
        || Says(r.error.message, "enotfound") || Says(r.error.message, "econnrefused")
        || (r.error.status.Some? && (r.error.status.value >= 500 || r.error.status.value == 429)))
  }

  lemma MentionsMeansSays(message: string, word: string)
    requires word != ""
    ensures Mentions(message, word) <==> Says(message, word)
  {
    var small := seq(|message|, i requires 0 <= i < |message| => LowerChar(message[i]));
    if Mentions(message, word) {
      var i := IndexOf(small, word);
      assert SaysAt(message, word, i) by {
        forall j | 0 <= j < |word| ensures SmallOf(message[i + j], word[j]) {
          assert small[i..i + |word|][j] == small[i + j] == LowerChar(message[i + j]);
        }
      }
    }
    if Says(message, word) {
      var i: nat :| SaysAt(message, word, i);
      forall j | 0 <= j < |word| ensures small[i..i + |word|][j] == word[j] {
        assert SmallOf(message[i + j], word[j]) && small[i..i + |word|][j] == LowerChar(message[i + j]);
      }
      assert small[i..i + |word|] == word;
      IndexOfIsFirst(small, word, i);
    }
  }

  lemma RetriesMeansWorth<T>(r: CallResult<T>)
    ensures Retries(r) <==> WorthRetrying(r)
  {
    if r.Err? {
      MentionsMeansSays(r.error.message, "timed out");
      MentionsMeansSays(r.error.message, "econnreset");
      MentionsMeansSays(r.error.message, "enotfound");
      MentionsMeansSays(r.error.message, "econnrefused");
    }
  }

  function Backoff(attempt: nat): nat {
    var d := 1000 * Pow2(attempt);
    if d < 8_000 then d else 8_000
  }

  function Pow2(n: nat): nat {
    if n == 0 then 1 else 2 * Pow2(n - 1)
  }

  function BackoffSum(attempts: nat): nat {
    if attempts == 0 then 0 else BackoffSum(attempts - 1) + Backoff(attempts - 1)
  }

  /** How many calls are made when the k-th call would return `results[k]`: up to the first that is not retried. */
  function CallsMade<T>(results: seq<CallResult<T>>, from: nat): (n: nat)
    requires from <= MAX_RETRIES < |results|
    ensures from < n <= MAX_RETRIES + 1
    decreases MAX_RETRIES - from
  {
    if from < MAX_RETRIES && Retries(results[from]) then CallsMade(results, from + 1) else from + 1
  }

  /** Every call but the last made is retried, and the last is not, unless the retries are used up. */
  lemma {:induction false} CallsMadeStops<T>(results: seq<CallResult<T>>, from: nat)
    requires from <= MAX_RETRIES < |results|
    ensures var n := CallsMade(results, from);
      (forall k | from <= k < n - 1 :: Retries(results[k])) && (n == MAX_RETRIES + 1 || !Retries(results[n - 1]))
    decreases MAX_RETRIES - from
  {
    if from < MAX_RETRIES && Retries(results[from]) { CallsMadeStops(results, from + 1); }
  }

  /** `withRetry`: `results` is what each call returns if it is made; `slept` is the backoff in milliseconds. */
  method WithRetry<T>(results: seq<CallResult<T>>) returns (r: CallResult<T>, calls: nat, slept: nat)
    requires |results| == MAX_RETRIES + 1
    ensures 0 < calls <= MAX_RETRIES + 1 && calls == CallsMade(results, 0) && r == results[calls - 1]
    ensures 1 <= calls <= 4 && (forall k | 0 <= k < calls - 1 :: WorthRetrying(results[k])) && (calls == 4 || !WorthRetrying(r))
    ensures slept == [0, 1_000, 3_000, 7_000][calls - 1]
  {
    calls, slept := 0, 0;
    var attempt := 0;
    while attempt <= MAX_RETRIES
      invariant attempt <= MAX_RETRIES && calls == attempt
      invariant CallsMade(results, 0) == CallsMade(results, attempt)
      invariant slept == BackoffSum(attempt)
      decreases MAX_RETRIES - attempt
    {
      r := results[attempt];
      calls := calls + 1;
      if r.Ok? { break; }
      if r.error.circuitOpen { break; }
      if !IsRetryable(r.error) || attempt == MAX_RETRIES { break; }
      slept := slept + Backoff(attempt);
      attempt := attempt + 1;
    }
    CallsMadeStops(results, 0);
    BackoffIsBounded(calls - 1);
    forall k | 0 <= k < |results| ensures Retries(results[k]) <==> WorthRetrying(results[k]) { RetriesMeansWorth(results[k]); }
  }

  lemma BackoffIsBounded(attempts: nat)
    requires attempts <= 3
    ensures BackoffSum(attempts) == [0, 1_000, 3_000, 7_000][attempts]
  {
    assert Pow2(0) == 1 && Pow2(1) == 2 && Pow2(2) == 4;
    assert BackoffSum(1) == 1_000 && BackoffSum(2) == 3_000 && BackoffSum(3) == 7_000;
    assert attempts in {0, 1, 2, 3};
  }

  /** One operation: when it starts, when its last call ends, and what each call returns if it is made. */
  datatype Op<T> = Op(start: int, finish: int, results: seq<CallResult<T>>)

  predicate Admits<T>(history: seq<Moment>, op: Op<T>) {
    FieldsAfter(BREAKER_OPTIONS, history + [Entered(op.start)]).state != Open
  }

  function CallsOf<T>(history: seq<Moment>, op: Op<T>): nat
    requires |op.results| == MAX_RETRIES + 1
  {
    if Admits(history, op) then CallsMade(op.results, 0) else 0
  }

  /** The breaker sees the operation's start and, if it is admitted, the result of its last call. */
  function AfterOp<T>(history: seq<Moment>, op: Op<T>): seq<Moment>
    requires |op.results| == MAX_RETRIES + 1
  {
    var h := history + [Entered(op.start)];
    if !Admits(history, op) then h
    else if op.results[CallsMade(op.results, 0) - 1].Ok? then h + [Succeeded(op.finish)]
    else h + [Failed(op.finish)]
  }

  /** Half a minute has passed since the latest failure. */
  predicate Rested(history: seq<Moment>, now: int) {
    LastFailure(history).Some? && now - LastFailure(history).value >= 30_000
  }

  /** What the breaker sees at the end of an operation: nothing if it was not admitted, else how it ended. */
  function Ending<T>(r: Option<CallResult<T>>, finish: int): seq<Moment> {
    if r.None? then [] else if r.value.Ok? then [Succeeded(finish)] else [Failed(finish)]
  }

  /** `exec` around `withRetry`, with no other call of this breaker in between; none is the CircuitOpenError. */
  method Exec<T>(b: CircuitBreaker, op: Op<T>) returns (r: Option<CallResult<T>>, calls: nat)
    requires b.Valid() && b.options == BREAKER_OPTIONS && |op.results| == MAX_RETRIES + 1
    modifies b
    ensures b.Valid() && b.history == AfterOp(old(b.history), op)
    ensures calls == CallsOf(old(b.history), op)
    ensures r.Some? <==> Admits(old(b.history), op)
    ensures if r.None? then calls == 0 else 1 <= calls <= 4 && r.value == op.results[calls - 1] && (calls == 4 || !WorthRetrying(r.value))
    ensures b.history == old(b.history) + [Entered(op.start)] + Ending(r, op.finish)
    ensures ClockRuns(old(b.history) + [Entered(op.start)]) ==>
      (r.Some? <==> FailuresSince(old(b.history)) < 5 || Rested(old(b.history), op.start))
  {
    if ClockRuns(b.history + [Entered(op.start)]) { StateAtStart(BREAKER_OPTIONS, b.history, Entered(op.start)); }
    var admitted := b.Enter(op.start);
    if !admitted { return None, 0; }
    var result, slept;
    result, calls, slept := WithRetry(op.results);
    if result.Ok? { b.Succeed(op.finish); } else { b.Fail(op.finish); }
    r := Some(result);
  }

  /** One breaker per environment, made on first use. */
  class HorizonService {
    var breakers: map<Environment, CircuitBreaker>

    ghost predicate Valid()
      reads this, breakers.Values
    {
      && (forall e | e in breakers :: breakers[e].options == BREAKER_OPTIONS && breakers[e].Valid())
      && (forall e, e' | e in breakers && e' in breakers && e != e' :: breakers[e] != breakers[e'])
    }

    /** What the environment's breaker has seen; a breaker not made yet has seen nothing. */
    ghost function HistoryOf(e: Environment): seq<Moment>
      reads this, breakers.Values
    {
      if e in breakers then breakers[e].history else []
    }

    constructor ()
      ensures Valid() && breakers == map[]
    {
      breakers := map[];
    }

    method GetBreaker(e: Environment) returns (b: CircuitBreaker)
      requires Valid()
      modifies this
      ensures Valid() && e in breakers && b == breakers[e]
      ensures e in old(breakers) ==> breakers == old(breakers)
      ensures e !in old(breakers) ==> fresh(b) && breakers == old(breakers)[e := b]
      ensures forall x | x in breakers.Values :: x in old(breakers.Values) || fresh(x)
      ensures forall e' :: HistoryOf(e') == old(HistoryOf(e'))
    {
      if e !in breakers {
        b := new CircuitBreaker(BREAKER_OPTIONS);
        breakers := breakers[e := b];
      }
      b := breakers[e];
    }

    /** Open means: at or above the threshold, and the reset timeout has not run since the latest failure. */
    method IsCircuitOpen(e: Environment, now: int) returns (open: bool)
      requires Valid()
      modifies this, breakers.Values
      ensures Valid() && HistoryOf(e) == old(HistoryOf(e)) + [Asked(now)]
      ensures ClockRuns(HistoryOf(e)) ==>
        (open <==> FailuresSince(old(HistoryOf(e))) >= 5 && !Rested(old(HistoryOf(e)), now))
      ensures forall e' | e' != e :: HistoryOf(e') == old(HistoryOf(e'))
    {
      var b := GetBreaker(e);
      var s := b.GetState(now);
      open := s == CircuitState.Open;
    }

    /** An operation: `breaker.exec(() => withRetry(fn))`, with no other call of this environment in between. */
    method Operate<T>(e: Environment, op: Op<T>) returns (r: Option<CallResult<T>>, calls: nat)
      requires Valid() && |op.results| == MAX_RETRIES + 1
      modifies this, breakers.Values
      ensures Valid() && forall b | b in breakers.Values :: b in old(breakers.Values) || fresh(b)
      ensures HistoryOf(e) == AfterOp(old(HistoryOf(e)), op)
      ensures calls == CallsOf(old(HistoryOf(e)), op)
      ensures r.Some? <==> Admits(old(HistoryOf(e)), op)
      ensures HistoryOf(e) == old(HistoryOf(e)) + [Entered(op.start)] + Ending(r, op.finish)
      ensures ClockRuns(old(HistoryOf(e)) + [Entered(op.start)]) ==>
        (r.Some? <==> FailuresSince(old(HistoryOf(e))) < 5 || Rested(old(HistoryOf(e)), op.start))
      ensures if r.None? then calls == 0
              else 1 <= calls <= 4 && r.value == op.results[calls - 1] && (calls == 4 || !WorthRetrying(r.value))
      ensures forall e' | e' != e :: HistoryOf(e') == old(HistoryOf(e'))
    {
      ghost var h := HistoryOf(e);
      var b := GetBreaker(e);
      assert b.history == h;
      assert forall e' | e' in breakers && e' != e :: breakers[e'] != b;
      label L:
      r, calls := Exec(b, op);
      assert HistoryOf(e) == b.history;
      assert forall e' | e' != e :: HistoryOf(e') == old@L(HistoryOf(e'));
    }
  }

  // ---------- the call budget when every call fails ----------

  predicate Callable<T>(ops: seq<Op<T>>) {
    forall i | 0 <= i < |ops| :: |ops[i].results| == MAX_RETRIES + 1
  }

  /** What a new breaker has seen after the first `n` operations, one after the other. */
  function HistoryAfter<T>(ops: seq<Op<T>>, n: nat): seq<Moment>
    requires Callable(ops) && n <= |ops|
  {
    if n == 0 then [] else AfterOp(HistoryAfter(ops, n - 1), ops[n - 1])
  }

  /** The calls operation `n` makes. */
  function CallsAt<T>(ops: seq<Op<T>>, n: nat): nat
    requires Callable(ops) && n < |ops|
  {
    CallsOf(HistoryAfter(ops, n), ops[n])
  }

  /** A worker that runs its operations in order, as the poll loop does, produces exactly that history. */
  method OperateInOrder<T>(service: HorizonService, e: Environment, ops: seq<Op<T>>)
    requires service.Valid() && service.HistoryOf(e) == [] && Callable(ops)
    modifies service, service.breakers.Values
    ensures service.Valid() && service.HistoryOf(e) == HistoryAfter(ops, |ops|)
  {
    for i := 0 to |ops|
      invariant service.Valid() && service.HistoryOf(e) == HistoryAfter(ops, i)
      invariant forall b | b in service.breakers.Values :: b in old(service.breakers.Values) || fresh(b)
    {
      var _, _ := service.Operate(e, ops[i]);
    }
  }

  /** Every call fails, and each operation starts after those before it ended. */
  predicate Sequential<T>(ops: seq<Op<T>>) {
    && Callable(ops)
    && (forall i | 0 <= i < |ops| :: ops[i].start <= ops[i].finish && forall k | 0 <= k <= MAX_RETRIES :: ops[i].results[k].Err?)
    && (forall i, j | 0 <= i < j < |ops| :: ops[i].finish <= ops[j].start)
  }

  /** The breaker before operation `n`. */
  function Before<T>(ops: seq<Op<T>>, n: nat): Fields
    requires Callable(ops) && n <= |ops|
  {
    FieldsAfter(BREAKER_OPTIONS, HistoryAfter(ops, n))
  }

  predicate Admitted<T>(ops: seq<Op<T>>, n: nat)
    requires Callable(ops) && n < |ops|
  {
    Admits(HistoryAfter(ops, n), ops[n])
  }

  /** The calls of each operation that finds the circuit not yet opened. */
  function CallsWhileClosed<T>(ops: seq<Op<T>>): seq<nat>
    requires Callable(ops)
  {
    seq(|ops|, i requires 0 <= i < |ops| => if Before(ops, i).state == Closed then CallsAt(ops, i) else 0)
  }

  function Sum(calls: seq<nat>): nat {
    if calls == [] then 0 else Sum(calls[..|calls| - 1]) + calls[|calls| - 1]
  }

  /** An operation whose calls all fail adds one failure, or finds the circuit open and changes nothing. */
  lemma FailingOp<T>(ops: seq<Op<T>>, n: nat)
    requires Sequential(ops) && n < |ops|
    ensures var f := Before(ops, n);
      && (Admitted(ops, n) <==> MaybeHalfOpen(BREAKER_OPTIONS, f, ops[n].start).state != Open)
      && Before(ops, n + 1) ==
        if Admitted(ops, n) then OnFailure(BREAKER_OPTIONS, MaybeHalfOpen(BREAKER_OPTIONS, f, ops[n].start), ops[n].finish) else f
  {
    var h, op := HistoryAfter(ops, n), ops[n];
    AfterAppend(BREAKER_OPTIONS, h, Entered(op.start));
    AfterAppend(BREAKER_OPTIONS, h + [Entered(op.start)], Failed(op.finish));
    var m := n + 1;
    assert HistoryAfter(ops, m) == AfterOp(h, op);
  }

  /** The circuit is open from the fifth failure on. */
  lemma {:induction false} OpenFromFifth<T>(ops: seq<Op<T>>, n: nat)
    requires Sequential(ops) && n <= |ops|
    ensures var f := Before(ops, n); (f.state == Closed <==> f.failures < 5) && f.state != HalfOpen
  {
    if n > 0 {
      OpenFromFifth(ops, n - 1);
      FailingOp(ops, n - 1);
    }
  }

  /** A call made before that belongs to a counted failure. */
  lemma CountedCalls<T>(ops: seq<Op<T>>, n: nat)
    requires Sequential(ops) && n < |ops|
    ensures CallsAt(ops, n) <= 4 && Before(ops, n).failures <= Before(ops, n + 1).failures
    ensures Before(ops, n).state == Closed ==> Before(ops, n + 1).failures == Before(ops, n).failures + 1
  {
    FailingOp(ops, n);
  }

  /** If each entry is paid for by a rise of `paid`, four for one and never past five, the sum is at most 20. */
  lemma {:induction false} SumIsPaid(calls: seq<nat>, paid: seq<nat>)
    requires |paid| == |calls| + 1
    requires forall i | 0 <= i < |calls| :: Pays(calls[i], paid[i], paid[i + 1])
    ensures Sum(calls) <= 4 * AtMostFive(paid[|calls|])
  {
    if calls != [] {
      var n := |calls| - 1;
      SumIsPaid(calls[..n], paid[..n + 1]);
      assert Pays(calls[n], paid[n], paid[n + 1]);
    }
  }

  predicate Pays(calls: nat, before: nat, after: nat) {
    calls <= 4 * (AtMostFive(after) - AtMostFive(before))
  }

  function AtMostFive(n: nat): nat {
    if n < 5 then n else 5
  }

  lemma SequentialBudget<T>(ops: seq<Op<T>>)
    requires Sequential(ops)
    ensures Sum(CallsWhileClosed(ops)) <= 20
  {
    var paid := seq(|ops| + 1, i requires 0 <= i <= |ops| => Before(ops, i).failures);
    forall i | 0 <= i < |ops| ensures Pays(CallsWhileClosed(ops)[i], paid[i], paid[i + 1]) {
      OpenFromFifth(ops, i);
      CountedCalls(ops, i);
    }
    SumIsPaid(CallsWhileClosed(ops), paid);
  }

  lemma OpenedWhen<T>(ops: seq<Op<T>>, n: nat)
    requires Sequential(ops) && n < |ops| && Before(ops, n + 1).state == Open
    ensures if Admitted(ops, n) then Before(ops, n + 1).openedAt == ops[n].finish else Before(ops, n + 1) == Before(ops, n)
  {
    FailingOp(ops, n);
  }

  /** While the circuit is open it remembers a time no earlier than the end of any admitted operation. */
  lemma {:induction false} OpenedAfter<T>(ops: seq<Op<T>>, i: nat, n: nat)
    requires Sequential(ops) && i < n <= |ops| && Admitted(ops, i) && Before(ops, n).state == Open
    ensures ops[i].finish <= Before(ops, n).openedAt
  {
    OpenedWhen(ops, n - 1);
    if i < n - 1 && !Admitted(ops, n - 1) {
      OpenedAfter(ops, i, n - 1);
    }
  }

  /**
   * If every call fails, sequential operations make at most 20 calls before the circuit opens, and after
   * that each admitted operation, of at most 4 calls, starts a full reset timeout after the previous one ended.
   */
  lemma CallBudget<T>(ops: seq<Op<T>>, i: nat, j: nat)
    requires Sequential(ops) && i < j < |ops|
    ensures Sum(CallsWhileClosed(ops)) <= 20
    ensures CallsAt(ops, j) <= 4
    ensures Admitted(ops, i) && Admitted(ops, j) && Before(ops, j).state == Open ==> ops[j].start - ops[i].finish >= 30_000
  {
    SequentialBudget(ops);
    FailingOp(ops, j);
    if Admitted(ops, i) && Before(ops, j).state == Open { OpenedAfter(ops, i, j); }
  }
}
