/** The circuit breaker with overlapping calls (src/infrastructure/stellar/circuit-breaker.ts). */
module CircuitBreakers {
  import opened Wrappers

  datatype CircuitState = Closed | Open | HalfOpen

  /** The three mutable fields. */
  datatype Fields = Fields(state: CircuitState, failures: nat, openedAt: int)

  datatype Options = Options(failureThreshold: int, resetTimeoutMs: int)

  const INITIAL := Fields(Closed, 0, 0)

  function MaybeHalfOpen(o: Options, f: Fields, now: int): Fields {
    if f.state == Open && now - f.openedAt >= o.resetTimeoutMs then f.(state := HalfOpen) else f
  }

  function OnSuccess(f: Fields): Fields {
    f.(failures := 0, state := Closed)
  }

  function OnFailure(o: Options, f: Fields, now: int): Fields {
    var n := f.failures + 1;
    if f.state == HalfOpen || n >= o.failureThreshold then Fields(Open, n, now) else f.(failures := n)
  }

  // ---------- histories ----------

  /** What the breaker sees: starts of calls, states read, and calls finishing, in any order of overlap. */
  datatype Moment = Entered(at: int) | Asked(at: int) | Succeeded(at: int) | Failed(at: int)

  function Next(o: Options, f: Fields, m: Moment): Fields {
    match m
    case Entered(at) => MaybeHalfOpen(o, f, at)
    case Asked(at) => MaybeHalfOpen(o, f, at)
    case Succeeded(_) => OnSuccess(f)
    case Failed(at) => OnFailure(o, f, at)
  }

  function FieldsAfter(o: Options, history: seq<Moment>): Fields {
    if history == [] then INITIAL else Next(o, FieldsAfter(o, history[..|history| - 1]), history[|history| - 1])
  }

  /** Failures since the last success. */
  function FailuresSince(history: seq<Moment>): nat {
    if history == [] then 0
    else
      match history[|history| - 1]
      case Succeeded(_) => 0
      case Failed(_) => FailuresSince(history[..|history| - 1]) + 1
      case _ => FailuresSince(history[..|history| - 1])
  }

  /** The time of the latest failure. */
  function LastFailure(history: seq<Moment>): Option<int> {
    if history == [] then None
    else if history[|history| - 1].Failed? then Some(history[|history| - 1].at)
    else LastFailure(history[..|history| - 1])
  }

  lemma AfterAppend(o: Options, history: seq<Moment>, m: Moment)
    ensures FieldsAfter(o, history + [m]) == Next(o, FieldsAfter(o, history), m)
  {
    assert (history + [m])[..|history|] == history;
  }

  lemma FailuresAppend(history: seq<Moment>, m: Moment)
    ensures FailuresSince(history + [m]) ==
      if m.Succeeded? then 0 else if m.Failed? then FailuresSince(history) + 1 else FailuresSince(history)
    ensures LastFailure(history + [m]) == if m.Failed? then Some(m.at) else LastFailure(history)
  {
    assert (history + [m])[..|history|] == history;
  }

  lemma ClockRan(history: seq<Moment>, m: Moment)
    requires ClockRuns(history + [m])
    ensures ClockRuns(history) && (history != [] ==> history[|history| - 1].at <= m.at)
  {
    var h := history + [m];
    assert forall i | 0 <= i < |history| :: history[i] == h[i];
    assert h[|history|] == m;
  }

  /** The reset timeout has run since the latest failure. */
  predicate MayProbe(o: Options, history: seq<Moment>, now: int) {
    LastFailure(history).Some? && now - LastFailure(history).value >= o.resetTimeoutMs
  }

  predicate ClockRuns(history: seq<Moment>) {
    forall i, j | 0 <= i < j < |history| :: history[i].at <= history[j].at
  }

  /** The fields are what the history says they are. */
  ghost predicate Agrees(o: Options, history: seq<Moment>) {
    var f := FieldsAfter(o, history);
    && f.failures == FailuresSince(history)
    && (f.state == Closed <==> f.failures < o.failureThreshold)
    && (f.state != Closed ==> LastFailure(history) == Some(f.openedAt))
    && (f.state == HalfOpen ==> history != [] && history[|history| - 1].at - f.openedAt >= o.resetTimeoutMs)
  }

  lemma {:induction false} BreakerAgrees(o: Options, history: seq<Moment>)
    requires o.failureThreshold >= 1 && ClockRuns(history)
    ensures Agrees(o, history)
  {
    if history != [] {
      BreakerAgrees(o, history[..|history| - 1]);
    }
  }

  /**
   * For a threshold of at least one: the failure counter counts the failures since the last success, the
   * circuit is closed exactly below the threshold, and half-open only once the timeout has run since the
   * latest failure. A threshold below one breaks this from the start.
   */
  lemma BreakerRefinesHistory(o: Options)
    ensures o.failureThreshold >= 1 <==> (forall history | ClockRuns(history) :: Agrees(o, history))
  {
    if o.failureThreshold >= 1 {
      forall history | ClockRuns(history) ensures Agrees(o, history) {
        BreakerAgrees(o, history);
      }
    } else {
      assert ClockRuns([]) && !Agrees(o, []);
    }
  }

  /** The state a call or a query finds, from the history alone. */
  lemma StateAtStart(o: Options, history: seq<Moment>, m: Moment)
    requires o.failureThreshold >= 1 && ClockRuns(history + [m]) && (m.Entered? || m.Asked?)
    ensures var s := FieldsAfter(o, history + [m]).state;
      && (s == Closed <==> FailuresSince(history) < o.failureThreshold)
      && (s == Open <==> FailuresSince(history) >= o.failureThreshold && !MayProbe(o, history, m.at))
  {
    ClockRan(history, m);
    BreakerAgrees(o, history);
    AfterAppend(o, history, m);
  }

  /** A call is admitted at or above the threshold only when the reset timeout has passed since the latest failure. */
  lemma NoEarlyProbe(o: Options, history: seq<Moment>, now: int)
    requires o.failureThreshold >= 1 && ClockRuns(history + [Entered(now)])
    requires FieldsAfter(o, history + [Entered(now)]).state != Open
    ensures FailuresSince(history) >= o.failureThreshold ==>
      LastFailure(history).Some? && now - LastFailure(history).value >= o.resetTimeoutMs
  {
    var h := history + [Entered(now)];
    assert h[..|h| - 1] == history;
    assert ClockRuns(history) by {
      assert forall i | 0 <= i < |history| :: history[i] == h[i];
    }
    BreakerAgrees(o, history);
    if history != [] {
      assert h[|history| - 1].at <= h[|history|].at;
    }
  }

  /** In every reachable state the half-open test in `onFailure` is redundant: the counter alone decides. */
  lemma HalfOpenTestIsRedundant(o: Options, history: seq<Moment>, now: int)
    requires o.failureThreshold >= 1 && ClockRuns(history)
    ensures var f := FieldsAfter(o, history);
      OnFailure(o, f, now) ==
        if f.failures + 1 >= o.failureThreshold then Fields(Open, f.failures + 1, now) else f.(failures := f.failures + 1)
  {
    BreakerAgrees(o, history);
  }

  // ---------- probes ----------

  predicate Finishes(m: Moment) {
    m.Succeeded? || m.Failed?
  }

  /** The circuit's state after moment `k`. */
  function StateAt(o: Options, h: seq<Moment>, k: nat): CircuitState
    requires k < |h|
  {
    FieldsAfter(o, h[..k + 1]).state
  }

  /** Moment `i` starts a call that is admitted because the circuit is half-open. */
  ghost predicate Probes(o: Options, h: seq<Moment>, i: nat) {
    i < |h| && h[i].Entered? && StateAt(o, h, i) == HalfOpen
  }

  /** The circuit is half-open from moment `i` to moment `j`. */
  ghost predicate SameWindow(o: Options, h: seq<Moment>, i: nat, j: nat) {
    i <= j < |h| && forall k | i <= k <= j :: StateAt(o, h, k) == HalfOpen
  }

  /** No half-open window admits two calls. */
  ghost predicate OneProbeEach(o: Options, h: seq<Moment>) {
    forall i: nat, j: nat | i < j && Probes(o, h, i) && Probes(o, h, j) :: !SameWindow(o, h, i, j)
  }

  /** A half-open window lasts until any call finishes, and no longer. */
  lemma {:induction false} WindowEndsAtFinish(o: Options, h: seq<Moment>, i: nat, j: nat)
    requires Probes(o, h, i) && i <= j < |h|
    ensures SameWindow(o, h, i, j) <==> forall k | i < k <= j :: !Finishes(h[k])
    decreases j
  {
    if i < j {
      WindowEndsAtFinish(o, h, i, j - 1);
      OneMoment(o, h, j);
      assert StateAt(o, h, j - 1) == FieldsAfter(o, h[..j]).state;
      assert SameWindow(o, h, i, j) ==> SameWindow(o, h, i, j - 1);
      if SameWindow(o, h, i, j - 1) {
        assert StateAt(o, h, j) == HalfOpen <==> !Finishes(h[j]);
      }
    }
  }

  /** A later call joins the probe's window if and only if no call finishes in between. */
  lemma SecondProbeIff(o: Options, h: seq<Moment>, i: nat, j: nat)
    requires Probes(o, h, i) && i < j < |h| && h[j].Entered?
    ensures Probes(o, h, j) && SameWindow(o, h, i, j) <==> forall k | i < k < j :: !Finishes(h[k])
  {
    WindowEndsAtFinish(o, h, i, j);
  }

  /**
   * Each half-open window admits at most one call if and only if, after every call admitted half-open, some call
   * finishes before the next one starts.
   */
  lemma OneProbeIff(o: Options, h: seq<Moment>)
    ensures OneProbeEach(o, h) <==>
      (forall i: nat, j: nat | Probes(o, h, i) && i < j < |h| && h[j].Entered? :: exists k :: i < k < j && Finishes(h[k]))
  {
    forall i: nat, j: nat | Probes(o, h, i) && i < j < |h| && h[j].Entered?
      ensures Probes(o, h, j) && SameWindow(o, h, i, j) <==> !exists k :: i < k < j && Finishes(h[k])
    {
      SecondProbeIff(o, h, i, j);
    }
  }

  /** Callers that take turns probe once: every admitted call finishes before the next one starts. */
  lemma SerialCallsProbeOnce(o: Options, h: seq<Moment>)
    requires forall i: nat, j: nat | i < j < |h| && h[i].Entered? && h[j].Entered? && StateAt(o, h, i) != Open ::
      exists k :: i < k < j && Finishes(h[k])
    ensures OneProbeEach(o, h)
  {
    OneProbeIff(o, h);
  }

  const FIVE_FAIL: seq<Moment> := [
    Entered(0), Entered(0), Entered(0), Entered(0), Entered(0), Failed(0), Failed(0), Failed(0), Failed(0), Failed(0)]

  /** With the default options: after five failures and the timeout, two calls are admitted before either finishes. */
  lemma TwoProbes()
    ensures var o, h := Options(5, 30_000), FIVE_FAIL + [Entered(30_000), Entered(30_000)];
      ClockRuns(h) && Probes(o, h, 10) && Probes(o, h, 11) && SameWindow(o, h, 10, 11) && !OneProbeEach(o, h)
  {
    var o, h := Options(5, 30_000), FIVE_FAIL + [Entered(30_000), Entered(30_000)];
    FiveFailuresOpen();
    assert h[..11] == FIVE_FAIL + [Entered(30_000)] && h[..12] == h[..11] + [Entered(30_000)];
    AfterAppend(o, FIVE_FAIL, Entered(30_000));
    AfterAppend(o, h[..11], Entered(30_000));
    assert Probes(o, h, 10);
    SecondProbeIff(o, h, 10, 11);
  }

  lemma FiveFailuresOpen()
    ensures FieldsAfter(Options(5, 30_000), FIVE_FAIL) == Fields(Open, 5, 0)
  {
    var o, h := Options(5, 30_000), FIVE_FAIL;
    assert h[..0] == [];
    FirstMoments(o, h, 5);
    assert FieldsAfter(o, h[..5]) == INITIAL;
    OneMoment(o, h, 5);
    OneMoment(o, h, 6);
    OneMoment(o, h, 7);
    OneMoment(o, h, 8);
    OneMoment(o, h, 9);
    assert h[..10] == h;
  }

  lemma OneMoment(o: Options, h: seq<Moment>, k: nat)
    requires k < |h|
    ensures FieldsAfter(o, h[..k + 1]) == Next(o, FieldsAfter(o, h[..k]), h[k])
  {
    assert h[..k + 1] == h[..k] + [h[k]];
    AfterAppend(o, h[..k], h[k]);
  }

  lemma {:induction false} FirstMoments(o: Options, h: seq<Moment>, n: nat)
    requires n <= |h| && forall k | 0 <= k < n :: h[k].Entered?
    ensures FieldsAfter(o, h[..n]) == INITIAL
  {
    if n > 0 {
      FirstMoments(o, h, n - 1);
      OneMoment(o, h, n - 1);
    }
  }

  // ---------- the object ----------

  /**
   * One breaker object. `exec` is `Enter`, the wrapped call, then `Succeed` or `Fail`; other calls may
   * enter and finish in between. `history` is everything it has seen.
   */
  class CircuitBreaker {
    const options: Options
    var state: CircuitState
    var failures: nat
    var openedAt: int
    ghost var history: seq<Moment>

    function Now(): Fields
      reads this
    {
      Fields(state, failures, openedAt)
    }

    ghost predicate Valid()
      reads this
    {
      Now() == FieldsAfter(options, history)
    }

    /** The threshold makes sense and the clock never went back. */
    ghost predicate Sound()
      reads this
    {
      options.failureThreshold >= 1 && ClockRuns(history)
    }

    constructor (options: Options)
      ensures Valid() && history == [] && this.options == options
    {
      this.options := options;
      state, failures, openedAt, history := Closed, 0, 0, [];
    }

    method TryHalfOpen(now: int)
      modifies this`state
      ensures Now() == MaybeHalfOpen(options, old(Now()), now)
    {
      if state == Open && now - openedAt >= options.resetTimeoutMs {
        state := HalfOpen;
      }
    }

    /** Closed exactly below the threshold; half-open exactly at or above it with the timeout past. */
    method GetState(now: int) returns (s: CircuitState)
      requires Valid()
      modifies this
      ensures Valid() && history == old(history) + [Asked(now)]
      ensures Sound() ==> (s == Closed <==> FailuresSince(old(history)) < options.failureThreshold)
      ensures Sound() ==>
        (s == Open <==> FailuresSince(old(history)) >= options.failureThreshold && !MayProbe(options, old(history), now))
    {
      AfterAppend(options, history, Asked(now));
      TryHalfOpen(now);
      history := history + [Asked(now)];
      if Sound() { StateAtStart(options, old(history), Asked(now)); }
      s := state;
    }

    /**
     * The start of `exec`; not admitted is the CircuitOpenError. A call is admitted exactly below the threshold, or when
     * the reset timeout has run since the latest failure.
     */
    method Enter(now: int) returns (admitted: bool)
      requires Valid()
      modifies this
      ensures Valid() && history == old(history) + [Entered(now)]
      ensures admitted <==> FieldsAfter(options, history).state != Open
      ensures Sound() ==>
        (admitted <==> FailuresSince(old(history)) < options.failureThreshold || MayProbe(options, old(history), now))
    {
      AfterAppend(options, history, Entered(now));
      TryHalfOpen(now);
      history := history + [Entered(now)];
      if Sound() { StateAtStart(options, old(history), Entered(now)); }
      admitted := state != Open;
    }

    /** Whatever the circuit was, it is closed and no failure counts any more. */
    method Succeed(ghost now: int)
      requires Valid()
      modifies this
      ensures Valid() && history == old(history) + [Succeeded(now)]
      ensures state == Closed && failures == FailuresSince(history) == 0
    {
      AfterAppend(options, history, Succeeded(now));
      FailuresAppend(history, Succeeded(now));
      failures := 0;
      state := Closed;
      history := history + [Succeeded(now)];
    }

    /** One more failure since the last success; the circuit is open exactly if that reaches the threshold, from now on. */
    method Fail(now: int)
      requires Valid()
      modifies this
      ensures Valid() && history == old(history) + [Failed(now)]
      ensures Sound() ==> failures == FailuresSince(history) == FailuresSince(old(history)) + 1
      ensures Sound() ==> state == (if FailuresSince(history) >= options.failureThreshold then Open else Closed)
      ensures Sound() && state == Open ==> openedAt == now
    {
      AfterAppend(options, history, Failed(now));
      FailuresAppend(history, Failed(now));
      failures := failures + 1;
      if state == HalfOpen || failures >= options.failureThreshold {
        state := Open;
        openedAt := now;
      }
      history := history + [Failed(now)];
      if Sound() {
        ClockRan(old(history), Failed(now));
        BreakerAgrees(options, old(history));
        BreakerAgrees(options, history);
      }
    }
  }
}
