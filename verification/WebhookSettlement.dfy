/**
 * Every delivery settles: at most 42 turns are ever spent on one delivery, one is always possible while it is pending,
 * and under a fair schedule it ends delivered or failed, whatever the other deliveries and fan-outs do.
 */
module WebhookSettlement {
  import opened Wrappers
  import opened WebhookMachine
  import opened WebhookBounds
  import opened WebhookProgress

  /** A turn on delivery `d`: a worker takes up its queued job, or the process that carries it takes its next step. */
  predicate WorksOn(w: World, t: Turn, d: nat) {
    || (t.Pick? && t.job.delivery == d && t.job in w.jobs && w.jobs[t.job] == Queued)
    || (t.Go? && t.proc < |w.procs| && Carrying(w.procs[t.proc]) == Some(d))
  }

  // ---------- the turns left ----------

  /** Turns left of the current attempt: enqueue, take up, read, load, send, write. */
  function Phase(pc: Pc): nat {
    match pc
    case FanEnqueue(_, _, _, _) => 6
    case AttemptEnqueue(_, _) => 6
    case AttemptRead(_) => 4
    case AttemptLoad(_, _) => 3
    case AttemptFail(_, _) => 1
    case AttemptSend(_, _) => 2
    case AttemptWrite(_, _, _) => 1
    case _ => 0
  }

  ghost function PhaseOf(w: World, d: nat): nat {
    if QueuedFor(w, d) then 5
    else if Carried(w, d) then
      var p :| 0 <= p < |w.procs| && Carrying(w.procs[p]) == Some(d);
      Phase(w.procs[p])
    else 0
  }

  /** Six turns for each attempt after the current one, and what is left of the current one. */
  ghost function TurnsLeft(w: World, d: nat): int {
    if d < |w.deliveries| && w.deliveries[d].status == Pending then 6 * (6 - w.deliveries[d].attemptCount) + PhaseOf(w, d) else 0
  }

  /** The carrier is unique, so its phase is the delivery's. */
  lemma PhaseIs(w: World, d: nat, p: nat)
    requires Inv(w) && p < |w.procs| && Carrying(w.procs[p]) == Some(d)
    ensures PhaseOf(w, d) == Phase(w.procs[p])
  {
    assert PcOk(w, w.procs[p]);
    assert Carried(w, d);
  }

  lemma TurnsLeftIsPositive(w: World, d: nat)
    requires Inv(w) && d < |w.deliveries|
    ensures 0 <= TurnsLeft(w, d) <= 42 && (TurnsLeft(w, d) > 0 <==> w.deliveries[d].status == Pending)
  {
    assert DelayOk(w.deliveries[d]);
    if w.deliveries[d].status == Pending && !QueuedFor(w, d) {
      var p :| 0 <= p < |w.procs| && Carrying(w.procs[p]) == Some(d);
      PhaseIs(w, d, p);
    }
  }

  lemma WorksOnExisting(w: World, t: Turn, d: nat)
    requires Inv(w) && WorksOn(w, t, d)
    ensures d < |w.deliveries| && w.deliveries[d].status == Pending
    ensures t.Pick? ==> QueuedFor(w, d) && t.job == JobId(d, TagAfter(w.deliveries[d].attemptCount))
  {
    if t.Pick? { assert JobOk(w, t.job); } else { assert PcOk(w, w.procs[t.proc]); }
  }

  // ---------- a turn on something else ----------

  /** Row, queued job and carriers of `d` are as before. */
  ghost predicate Untouched(w: World, w': World, d: nat)
    requires d < |w.deliveries|
  {
    && d < |w'.deliveries| && w'.deliveries[d] == w.deliveries[d] && (QueuedFor(w', d) <==> QueuedFor(w, d))
    && (forall p | 0 <= p < |w.procs| && Carrying(w.procs[p]) == Some(d) :: p < |w'.procs| && w'.procs[p] == w.procs[p])
  }

  lemma FanTurn(events: map<nat, Event>, w: World, p: nat, d: nat)
    requires p < |w.procs| && IsFan(w.procs[p]) && Carrying(w.procs[p]) != Some(d) && d < |w.deliveries|
    ensures Untouched(w, Fan(events, w, p, NoFault), d)
  {
  }

  lemma EndTurn(w: World, p: nat, job: JobId, d: nat)
    requires Inv(w) && p < |w.procs| && w.procs[p] == AttemptEnd(job) && d < |w.deliveries|
    ensures Untouched(w, Goto(w.(jobs := w.jobs - {job}), p, Done), d)
  {
    assert PcOk(w, w.procs[p]);
  }

  lemma AttemptTurn(w: World, p: nat, choice: Choice, d: nat)
    requires p < |w.procs| && Carrying(w.procs[p]).Some? && Carrying(w.procs[p]) != Some(d) && !IsFan(w.procs[p])
    requires d < |w.deliveries| && choice.fault == NoFault && PcOk(w, w.procs[p])
    ensures Untouched(w, Attempt(w, p, choice), d)
  {
  }

  lemma OtherTurn(events: map<nat, Event>, w: World, t: Turn, d: nat)
    requires Inv(w) && Orderly(t) && d < |w.deliveries| && !WorksOn(w, t, d)
    ensures Untouched(w, Step(events, w, t), d)
  {
    if t.Go? && t.proc < |w.procs| {
      var p, pc := t.proc, w.procs[t.proc];
      assert PcOk(w, pc);
      if IsFan(pc) {
        FanTurn(events, w, p, d);
      } else if pc.AttemptEnd? {
        EndTurn(w, p, pc.job, d);
      } else if Carrying(pc).Some? {
        AttemptTurn(w, p, Met(events, w, p, t.send, t.fault), d);
      }
    }
  }

  lemma OtherTurnLeaves(events: map<nat, Event>, w: World, t: Turn, d: nat)
    requires Inv(w) && Orderly(t) && d < |w.deliveries| && !WorksOn(w, t, d)
    ensures TurnsLeft(Step(events, w, t), d) == TurnsLeft(w, d)
  {
    var w' := Step(events, w, t);
    OtherTurn(events, w, t, d);
    StepKeeps(events, w, t);
    if w.deliveries[d].status == Pending && !QueuedFor(w, d) {
      var p :| 0 <= p < |w.procs| && Carrying(w.procs[p]) == Some(d);
      PhaseIs(w, d, p);
      PhaseIs(w', d, p);
    }
  }

  // ---------- a turn on it ----------

  lemma PickTurn(events: map<nat, Event>, w: World, job: JobId)
    requires Inv(w) && WorksOn(w, Pick(job), job.delivery)
    ensures TurnsLeft(Step(events, w, Pick(job)), job.delivery) < TurnsLeft(w, job.delivery)
  {
    var w' := Step(events, w, Pick(job));
    WorksOnExisting(w, Pick(job), job.delivery);
    StepKeeps(events, w, Pick(job));
    assert w'.procs[|w.procs|] == AttemptRead(job);
    PhaseIs(w', job.delivery, |w.procs|);
  }

  lemma EnqueueTurn(events: map<nat, Event>, w: World, t: Turn, d: nat)
    requires Inv(w) && Orderly(t) && t.Go? && WorksOn(w, t, d) && (w.procs[t.proc].FanEnqueue? || w.procs[t.proc].AttemptEnqueue?)
    ensures TurnsLeft(Step(events, w, t), d) < TurnsLeft(w, d)
  {
    WorksOnExisting(w, t, d);
    assert PcOk(w, w.procs[t.proc]);
    PhaseIs(w, d, t.proc);
    assert QueuedFor(Step(events, w, t), d);
  }

  /** The carrier takes a shorter phase, counts an attempt, or settles the delivery. */
  lemma RowTurn(w: World, p: nat, choice: Choice, d: nat)
    requires p < |w.procs| && PcOk(w, w.procs[p]) && choice.fault == NoFault && Carrying(w.procs[p]) == Some(d)
    requires !w.procs[p].FanEnqueue? && !w.procs[p].AttemptEnqueue?
    ensures var w' := Attempt(w, p, choice);
      && p < |w'.procs| && d < |w'.deliveries|
      && (w'.deliveries[d].status == Pending ==>
            && Carrying(w'.procs[p]) == Some(d)
            && (|| (w'.deliveries[d].attemptCount == w.deliveries[d].attemptCount && Phase(w'.procs[p]) < Phase(w.procs[p]))
                || (w'.deliveries[d].attemptCount == w.deliveries[d].attemptCount + 1 && Phase(w'.procs[p]) == 6)))
  {
  }

  lemma CarrierTurn(events: map<nat, Event>, w: World, t: Turn, d: nat)
    requires Inv(w) && Orderly(t) && t.Go? && WorksOn(w, t, d) && !w.procs[t.proc].FanEnqueue? && !w.procs[t.proc].AttemptEnqueue?
    ensures TurnsLeft(Step(events, w, t), d) < TurnsLeft(w, d)
  {
    var p, w' := t.proc, Step(events, w, t);
    WorksOnExisting(w, t, d);
    assert PcOk(w, w.procs[p]);
    StepKeeps(events, w, t);
    PhaseIs(w, d, p);
    TurnsLeftIsPositive(w, d);
    RowTurn(w, p, Met(events, w, p, t.send, t.fault), d);
    if w'.deliveries[d].status == Pending { PhaseIs(w', d, p); }
  }

  lemma OwnTurnLowers(events: map<nat, Event>, w: World, t: Turn, d: nat)
    requires Inv(w) && Orderly(t) && WorksOn(w, t, d)
    ensures TurnsLeft(Step(events, w, t), d) < TurnsLeft(w, d)
  {
    if t.Pick? {
      PickTurn(events, w, t.job);
    } else if w.procs[t.proc].FanEnqueue? || w.procs[t.proc].AttemptEnqueue? {
      EnqueueTurn(events, w, t, d);
    } else {
      CarrierTurn(events, w, t, d);
    }
  }

  // ---------- finite runs ----------

  /** The turns a schedule spends on one delivery. */
  function TurnsOn(events: map<nat, Event>, w: World, schedule: seq<Turn>, d: nat): nat
    decreases |schedule|
  {
    if schedule == [] then 0
    else (if WorksOn(w, schedule[0], d) then 1 else 0) + TurnsOn(events, Step(events, w, schedule[0]), schedule[1..], d)
  }

  lemma RowsRemain(events: map<nat, Event>, w: World, t: Turn)
    ensures |w.deliveries| <= |Step(events, w, t).deliveries|
  {
    if t.Go? && t.proc < |w.procs| {
      if IsFan(w.procs[t.proc]) { FanFrame(events, w, t.proc, t.fault); }
      else { PairsUnchanged(w, t.proc, Met(events, w, t.proc, t.send, t.fault)); }
    }
  }

  lemma {:induction false} TurnsAreBudgeted(events: map<nat, Event>, w: World, schedule: seq<Turn>, d: nat)
    requires Inv(w) && AllOrderly(schedule)
    ensures TurnsOn(events, w, schedule, d) + TurnsLeft(Run(events, w, schedule), d) <= if d < |w.deliveries| then TurnsLeft(w, d) else 42
    decreases |schedule|
  {
    if schedule != [] {
      var t := schedule[0];
      StepKeeps(events, w, t);
      TurnsAreBudgeted(events, Step(events, w, t), schedule[1..], d);
      RowsRemain(events, w, t);
      if WorksOn(w, t, d) {
        WorksOnExisting(w, t, d);
        OwnTurnLowers(events, w, t, d);
      } else if d < |w.deliveries| {
        OtherTurnLeaves(events, w, t, d);
      } else if d < |Step(events, w, t).deliveries| {
        TurnsLeftIsPositive(Step(events, w, t), d);
      }
    }
  }

  /**
   * Whatever else the schedule does, it spends at most 42 turns on a delivery: six for each of seven attempts. While
   * the delivery is pending some turn on it is possible, whatever the answer; once they are used up it is settled.
   */
  lemma TurnsAreFew(events: map<nat, Event>, schedule: seq<Turn>, d: nat)
    requires AllOrderly(schedule)
    ensures var w := Run(events, INIT, schedule);
      && TurnsOn(events, INIT, schedule, d) <= 42
      && (d < |w.deliveries| ==> (w.deliveries[d].status == Pending <==> exists t :: Orderly(t) && WorksOn(w, t, d)))
      && (d < |w.deliveries| && TurnsOn(events, INIT, schedule, d) == 42 ==> w.deliveries[d].status in {Delivered, Failed})
  {
    var w := Run(events, INIT, schedule);
    RunKeeps(events, INIT, schedule);
    TurnsAreBudgeted(events, INIT, schedule, d);
    if d < |w.deliveries| {
      TurnsLeftIsPositive(w, d);
      forall t | Orderly(t) && WorksOn(w, t, d) ensures w.deliveries[d].status == Pending { WorksOnExisting(w, t, d); }
      if w.deliveries[d].status == Pending { var t := PossibleTurn(w, d, NetworkError); }
    }
  }

  lemma PossibleTurn(w: World, d: nat, send: SendResult) returns (t: Turn)
    requires Inv(w) && d < |w.deliveries| && w.deliveries[d].status == Pending
    ensures Orderly(t) && WorksOn(w, t, d) && (t.Go? ==> t.send == send)
  {
    if QueuedFor(w, d) {
      t := Pick(JobId(d, TagAfter(w.deliveries[d].attemptCount)));
    } else {
      var p :| 0 <= p < |w.procs| && Carrying(w.procs[p]) == Some(d);
      t := Go(p, send, NoFault);
    }
  }

  // ---------- endless runs ----------

  predicate Follows(events: map<nat, Event>, w: World, t: Turn, w': World) {
    w' == Step(events, w, t)
  }

  /** An endless run: turn `s(n)` leads from store `ws(n)` to store `ws(n + 1)`. */
  ghost predicate Endless(events: map<nat, Event>, s: nat -> Turn, ws: nat -> World) {
    ws(0) == INIT && forall n: nat {:trigger Follows(events, ws(n), s(n), ws(n + 1))} :: Follows(events, ws(n), s(n), ws(n + 1))
  }

  /** Every moment of an endless run is reached by a run of its first turns. */
  lemma {:induction false} EndlessIsRun(events: map<nat, Event>, s: nat -> Turn, ws: nat -> World, n: nat)
    requires Endless(events, s, ws)
    ensures ws(n) == Run(events, INIT, seq(n, i requires 0 <= i < n => s(i)))
  {
    if n > 0 {
      var k := n - 1;
      EndlessIsRun(events, s, ws, k);
      assert Follows(events, ws(k), s(k), ws(k + 1));
      RunOneMore(events, seq(k, i requires 0 <= i < k => s(i)), s(k));
      assert seq(n, i requires 0 <= i < n => s(i)) == seq(k, i requires 0 <= i < k => s(i)) + [s(k)];
    }
  }

  ghost predicate TakenLater(s: nat -> Turn, n: nat, job: JobId) {
    exists m: nat :: n <= m && s(m) == Pick(job)
  }

  ghost predicate MovesLater(s: nat -> Turn, n: nat, p: nat) {
    exists m: nat :: n <= m && s(m).Go? && s(m).proc == p
  }

  predicate IsQueued(w: World, job: JobId) {
    job in w.jobs && w.jobs[job] == Queued
  }

  predicate Carries(w: World, p: nat, d: nat) {
    p < |w.procs| && Carrying(w.procs[p]) == Some(d)
  }

  /** Orderly; every queued job is some day taken up, and every process carrying a delivery some day moves again. */
  ghost predicate Fair(s: nat -> Turn, ws: nat -> World) {
    && (forall n: nat :: Orderly(s(n)))
    && (forall n: nat, job: JobId | IsQueued(ws(n), job) :: TakenLater(s, n, job))
    && (forall n: nat, p: nat, d: nat | Carries(ws(n), p, d) :: MovesLater(s, n, p))
  }

  lemma {:induction false} InvAt(events: map<nat, Event>, s: nat -> Turn, ws: nat -> World, n: nat)
    requires Endless(events, s, ws) && Fair(s, ws)
    ensures Inv(ws(n))
  {
    if n > 0 {
      var k := n - 1;
      InvAt(events, s, ws, k);
      assert Follows(events, ws(k), s(k), ws(k + 1));
      StepKeeps(events, ws(k), s(k));
    }
  }

  /** One turn uses up a turn of `d`, or leaves its row and what is possible on it alone. */
  ghost predicate Ticks(w: World, t: Turn, w': World, d: nat)
    requires d < |w.deliveries|
  {
    && d < |w'.deliveries|
    && if WorksOn(w, t, d) then TurnsLeft(w', d) < TurnsLeft(w, d)
       else
         && TurnsLeft(w', d) == TurnsLeft(w, d) && w'.deliveries[d] == w.deliveries[d]
         && forall u | WorksOn(w, u, d) :: WorksOn(w', u, d)
  }

  lemma StepTicks(events: map<nat, Event>, w: World, t: Turn, d: nat)
    requires Inv(w) && Orderly(t) && d < |w.deliveries|
    ensures Ticks(w, t, Step(events, w, t), d)
  {
    RowsRemain(events, w, t);
    if WorksOn(w, t, d) {
      OwnTurnLowers(events, w, t, d);
    } else {
      OtherTurn(events, w, t, d);
      OtherTurnLeaves(events, w, t, d);
      forall u | WorksOn(w, u, d) ensures WorksOn(Step(events, w, t), u, d) { StaysPossible(events, w, t, u, d); }
    }
  }

  /** A possible turn on `d` stays possible until a turn on `d` is taken. */
  lemma StaysPossible(events: map<nat, Event>, w: World, t: Turn, u: Turn, d: nat)
    requires Inv(w) && Orderly(t) && d < |w.deliveries| && !WorksOn(w, t, d) && WorksOn(w, u, d)
    ensures WorksOn(Step(events, w, t), u, d)
  {
    OtherTurn(events, w, t, d);
    WorksOnExisting(w, u, d);
  }

  lemma Tick(events: map<nat, Event>, s: nat -> Turn, ws: nat -> World, n: nat, d: nat)
    requires Endless(events, s, ws) && Fair(s, ws) && d < |ws(n).deliveries|
    ensures Ticks(ws(n), s(n), ws(n + 1), d)
  {
    InvAt(events, s, ws, n);
    assert Follows(events, ws(n), s(n), ws(n + 1));
    StepTicks(events, ws(n), s(n), d);
  }

  lemma PendingAt(events: map<nat, Event>, s: nat -> Turn, ws: nat -> World, n: nat, d: nat)
    requires Endless(events, s, ws) && Fair(s, ws) && d < |ws(n).deliveries|
    ensures TurnsLeft(ws(n), d) >= 0 && (ws(n).deliveries[d].status == Pending <==> TurnsLeft(ws(n), d) > 0)
  {
    InvAt(events, s, ws, n);
    TurnsLeftIsPositive(ws(n), d);
  }

  /** Between moment `n` and moment `k`, whose turn is possible at `n`, comes the next turn on `d`. */
  lemma {:induction false} NextTurnOn(events: map<nat, Event>, s: nat -> Turn, ws: nat -> World, n: nat, k: nat, d: nat)
    returns (m: nat)
    requires Endless(events, s, ws) && Fair(s, ws) && n <= k && d < |ws(n).deliveries| && WorksOn(ws(n), s(k), d)
    ensures n < m && d < |ws(m).deliveries| && TurnsLeft(ws(m), d) < TurnsLeft(ws(n), d)
    decreases k - n
  {
    m := n + 1;
    Tick(events, s, ws, n, d);
    if !WorksOn(ws(n), s(n), d) {
      m := NextTurnOn(events, s, ws, n + 1, k, d);
    }
  }

  lemma SomeTurnOn(events: map<nat, Event>, s: nat -> Turn, ws: nat -> World, n: nat, d: nat) returns (k: nat)
    requires Endless(events, s, ws) && Fair(s, ws) && d < |ws(n).deliveries| && ws(n).deliveries[d].status == Pending
    ensures n <= k && WorksOn(ws(n), s(k), d)
  {
    InvAt(events, s, ws, n);
    var w := ws(n);
    if QueuedFor(w, d) {
      var job := JobId(d, TagAfter(w.deliveries[d].attemptCount));
      assert IsQueued(w, job) && TakenLater(s, n, job);
      k :| n <= k && s(k) == Pick(job);
    } else {
      var p: nat :| 0 <= p < |w.procs| && Carrying(w.procs[p]) == Some(d);
      assert Carries(w, p, d) && MovesLater(s, n, p);
      k :| n <= k && s(k).Go? && s(k).proc == p;
    }
  }

  lemma {:induction false} SettlesAfter(events: map<nat, Event>, s: nat -> Turn, ws: nat -> World, n: nat, d: nat)
    returns (m: nat)
    requires Endless(events, s, ws) && Fair(s, ws) && d < |ws(n).deliveries|
    ensures n <= m && d < |ws(m).deliveries| && ws(m).deliveries[d].status != Pending
    decreases TurnsLeft(ws(n), d)
  {
    PendingAt(events, s, ws, n, d);
    if ws(n).deliveries[d].status != Pending { return n; }
    var k := SomeTurnOn(events, s, ws, n, d);
    var next := NextTurnOn(events, s, ws, n, k, d);
    m := SettlesAfter(events, s, ws, next, d);
  }

  /** A settled row is never written again. */
  lemma {:induction false} StaysSettled(events: map<nat, Event>, s: nat -> Turn, ws: nat -> World, m: nat, k: nat, d: nat)
    requires Endless(events, s, ws) && Fair(s, ws) && m <= k && d < |ws(m).deliveries| && ws(m).deliveries[d].status != Pending
    ensures d < |ws(k).deliveries| && ws(k).deliveries[d] == ws(m).deliveries[d]
    decreases k
  {
    if m < k {
      var n := k - 1;
      StaysSettled(events, s, ws, m, n, d);
      Tick(events, s, ws, n, d);
      InvAt(events, s, ws, n);
      if WorksOn(ws(n), s(n), d) { WorksOnExisting(ws(n), s(n), d); }
    }
  }

  ghost predicate SettledFrom(ws: nat -> World, m: nat, d: nat) {
    && d < |ws(m).deliveries| && ws(m).deliveries[d].status in {Delivered, Failed}
    && forall k: nat | m <= k :: d < |ws(k).deliveries| && ws(k).deliveries[d] == ws(m).deliveries[d]
  }

  /** In every fair endless run each delivery some day is delivered or failed, and its row never changes after that. */
  lemma EveryDeliverySettles(events: map<nat, Event>, s: nat -> Turn, ws: nat -> World, n: nat, d: nat)
    requires Endless(events, s, ws) && Fair(s, ws) && d < |ws(n).deliveries|
    ensures exists m: nat :: n <= m && SettledFrom(ws, m, d)
  {
    var m := SettlesAfter(events, s, ws, n, d);
    forall k: nat | m <= k ensures d < |ws(k).deliveries| && ws(k).deliveries[d] == ws(m).deliveries[d] {
      StaysSettled(events, s, ws, m, k, d);
    }
    assert SettledFrom(ws, m, d);
  }
}
