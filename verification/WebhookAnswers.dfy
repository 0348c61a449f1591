/**
 * What the endpoints answered and what became of the deliveries, over whole runs: no delivery is delivered without an
 * answer of success, and none fails without a final answer or a missing target.
 */
module WebhookAnswers {
  import opened Wrappers
  import opened WebhookMachine
  import opened WebhookBounds

  /** The answers that deliver. */
  predicate Accepts(result: SendResult) {
    result.Status? && 200 <= result.code <= 299
  }

  /** The failures of a `count`-th attempt that are tried again: no answer, or one of these numbers, up to the sixth time. */
  predicate AsksForMore(result: SendResult, count: nat) {
    count < 7 && (result.NetworkError? || result.code >= 500 || result.code in {408, 409, 425, 429})
  }

  predicate IsFinal(result: SendResult, count: nat) {
    !Accepts(result) && !AsksForMore(result, count)
  }

  /** The row's endpoint is missing or inactive, or its event is missing. */
  predicate Absent(endpoints: map<nat, Endpoint>, events: map<nat, Event>, row: Delivery) {
    row.eventId !in events || row.endpointId !in endpoints || !endpoints[row.endpointId].active
  }

  /** In turn `k` a request for the delivery went out as its `count`-th attempt, and this was the answer. */
  predicate SentAt(events: map<nat, Event>, schedule: seq<Turn>, k: nat, d: nat, result: SendResult, count: nat) {
    k < |schedule| && schedule[k].Go? &&
    var w, t := Run(events, INIT, schedule[..k]), schedule[k];
    && t.proc < |w.procs| && w.procs[t.proc].AttemptSend? && t.send == result && t.fault == NoFault
    && w.procs[t.proc].job.delivery == d && w.procs[t.proc].row.attemptCount + 1 == count
  }

  /** In turn `k` an attempt of the delivery found no endpoint or no event for it. */
  predicate AbsentAt(events: map<nat, Event>, schedule: seq<Turn>, k: nat, d: nat) {
    k < |schedule| && schedule[k].Go? &&
    var w, t := Run(events, INIT, schedule[..k]), schedule[k];
    && t.proc < |w.procs| && w.procs[t.proc].AttemptLoad? && w.procs[t.proc].job.delivery == d
    && Absent(w.endpoints, events, w.procs[t.proc].row)
  }

  ghost predicate Sent(events: map<nat, Event>, schedule: seq<Turn>, d: nat, result: SendResult, count: nat) {
    exists k :: SentAt(events, schedule, k, d, result, count)
  }

  ghost predicate Accepted(events: map<nat, Event>, schedule: seq<Turn>, d: nat) {
    exists result, count :: Sent(events, schedule, d, result, count) && Accepts(result)
  }

  ghost predicate Rejected(events: map<nat, Event>, schedule: seq<Turn>, d: nat) {
    || (exists result, count :: Sent(events, schedule, d, result, count) && IsFinal(result, count))
    || (exists k :: AbsentAt(events, schedule, k, d))
  }

  // ---------- the invariant ----------

  ghost predicate RowExplained(events: map<nat, Event>, schedule: seq<Turn>, d: nat, status: DeliveryStatus) {
    match status
    case Pending => true
    case Delivered => Accepted(events, schedule, d)
    case Failed => Rejected(events, schedule, d)
  }

  ghost predicate PcExplained(events: map<nat, Event>, schedule: seq<Turn>, pc: Pc) {
    match pc
    case AttemptFail(job, _) => exists k :: AbsentAt(events, schedule, k, job.delivery)
    case AttemptWrite(job, row, result) => Sent(events, schedule, job.delivery, result, row.attemptCount + 1)
    case _ => true
  }

  ghost predicate Explained(events: map<nat, Event>, schedule: seq<Turn>, w: World) {
    && (forall d | 0 <= d < |w.deliveries| :: RowExplained(events, schedule, d, w.deliveries[d].status))
    && (forall p | 0 <= p < |w.procs| :: PcExplained(events, schedule, w.procs[p]))
  }

  lemma SentLater(events: map<nat, Event>, s: seq<Turn>, t: Turn, d: nat, result: SendResult, count: nat)
    requires Sent(events, s, d, result, count)
    ensures Sent(events, s + [t], d, result, count)
  {
    var k: nat :| SentAt(events, s, k, d, result, count);
    assert (s + [t])[..k] == s[..k];
    assert SentAt(events, s + [t], k, d, result, count);
  }

  lemma AbsentLater(events: map<nat, Event>, s: seq<Turn>, t: Turn, k: nat, d: nat)
    requires AbsentAt(events, s, k, d)
    ensures AbsentAt(events, s + [t], k, d)
  {
    assert (s + [t])[..k] == s[..k];
  }

  lemma RowStaysExplained(events: map<nat, Event>, s: seq<Turn>, t: Turn, d: nat, status: DeliveryStatus)
    requires RowExplained(events, s, d, status)
    ensures RowExplained(events, s + [t], d, status)
  {
    if status == Delivered {
      var result, count: nat :| Sent(events, s, d, result, count) && Accepts(result);
      SentLater(events, s, t, d, result, count);
    } else if status == Failed {
      if result, count: nat :| Sent(events, s, d, result, count) && IsFinal(result, count) {
        SentLater(events, s, t, d, result, count);
      } else {
        var k: nat :| AbsentAt(events, s, k, d);
        AbsentLater(events, s, t, k, d);
      }
    }
  }

  lemma PcStaysExplained(events: map<nat, Event>, s: seq<Turn>, t: Turn, pc: Pc)
    requires PcExplained(events, s, pc)
    ensures PcExplained(events, s + [t], pc)
  {
    if pc.AttemptFail? {
      var k: nat :| AbsentAt(events, s, k, pc.job.delivery);
      AbsentLater(events, s, t, k, pc.job.delivery);
    } else if pc.AttemptWrite? {
      SentLater(events, s, t, pc.job.delivery, pc.result, pc.row.attemptCount + 1);
    }
  }

  /** The turn just taken. */
  lemma LastTurn(events: map<nat, Event>, s: seq<Turn>, t: Turn)
    requires t.Go? && t.proc < |Run(events, INIT, s).procs|
    ensures var pc := Run(events, INIT, s).procs[t.proc];
      && (pc.AttemptSend? && t.fault == NoFault ==> SentAt(events, s + [t], |s|, pc.job.delivery, t.send, pc.row.attemptCount + 1))
      && (pc.AttemptLoad? && Absent(Run(events, INIT, s).endpoints, events, pc.row) ==> AbsentAt(events, s + [t], |s|, pc.job.delivery))
  {
    assert (s + [t])[..|s|] == s;
  }

  /** What one step of an attempt makes of its process. */
  lemma PcAfter(events: map<nat, Event>, w: World, p: nat, send: SendResult, fault: Fault)
    requires p < |w.procs| && !IsFan(w.procs[p]) && !IsManual(w.procs[p])
    ensures var w', pc := Attempt(w, p, Met(events, w, p, send, fault)), w.procs[p];
      && p < |w'.procs|
      && (w'.procs[p].AttemptFail? ==>
            pc.AttemptLoad? && pc.job == w'.procs[p].job && Absent(w.endpoints, events, pc.row))
      && (w'.procs[p].AttemptWrite? ==>
            pc.AttemptSend? && fault == NoFault && w'.procs[p] == AttemptWrite(pc.job, pc.row, send))
  {
  }

  /** What one step of an attempt makes of a row. */
  lemma StatusAfter(w: World, p: nat, choice: Choice, d: nat)
    requires p < |w.procs| && d < |w.deliveries| && !IsFan(w.procs[p]) && !IsManual(w.procs[p])
    ensures var w', pc := Attempt(w, p, choice), w.procs[p];
      d < |w'.deliveries| && (w'.deliveries[d].status == w.deliveries[d].status
        || (pc.AttemptFail? && pc.job.delivery == d && w'.deliveries[d].status == Failed)
        || (pc.AttemptWrite? && pc.job.delivery == d &&
              match w'.deliveries[d].status
              case Delivered => Accepts(pc.result)
              case Failed => IsFinal(pc.result, pc.row.attemptCount + 1)
              case Pending => false))
  {
    if w.procs[p].AttemptWrite? { WriteDecides(w.procs[p].row, w.procs[p].result); }
  }

  lemma WriteDecides(row: Delivery, result: SendResult)
    ensures IsOk(result) <==> Accepts(result)
    ensures NextDelay(result, row.attemptCount + 1).Some? && !IsOk(result) <==> AsksForMore(result, row.attemptCount + 1)
  {
  }

  lemma FanKeepsRows(events: map<nat, Event>, w: World, p: nat, fault: Fault)
    requires p < |w.procs| && IsFan(w.procs[p])
    ensures var w' := Fan(events, w, p, fault);
      && |w'.procs| == |w.procs| && !w'.procs[p].AttemptFail? && !w'.procs[p].AttemptWrite?
      && (forall q | 0 <= q < |w.procs| && q != p :: w'.procs[q] == w.procs[q])
      && (forall d | 0 <= d < |w'.deliveries| ::
            w'.deliveries[d].status == if d < |w.deliveries| then w.deliveries[d].status else Pending)
  {
  }

  lemma ManualKeepsRows(w: World, p: nat, fault: Fault)
    requires p < |w.procs| && IsManual(w.procs[p])
    ensures var w' := ManualStep(w, p, fault);
      && |w'.procs| == |w.procs| && |w'.deliveries| == |w.deliveries| && !w'.procs[p].AttemptFail? && !w'.procs[p].AttemptWrite?
      && (forall q | 0 <= q < |w.procs| && q != p :: w'.procs[q] == w.procs[q])
      && (forall d | 0 <= d < |w'.deliveries| :: w'.deliveries[d].status in {w.deliveries[d].status, Pending})
  {
  }

  lemma FanExplained(events: map<nat, Event>, s: seq<Turn>, t: Turn, w: World)
    requires w == Run(events, INIT, s) && Explained(events, s, w)
    requires t.Go? && t.proc < |w.procs| && (IsFan(w.procs[t.proc]) || IsManual(w.procs[t.proc]))
    ensures Explained(events, s + [t], Step(events, w, t))
  {
    var p, w' := t.proc, Step(events, w, t);
    if IsFan(w.procs[p]) { FanKeepsRows(events, w, p, t.fault); } else { ManualKeepsRows(w, p, t.fault); }
    forall d | 0 <= d < |w'.deliveries| ensures RowExplained(events, s + [t], d, w'.deliveries[d].status) {
      if d < |w.deliveries| && w'.deliveries[d].status == w.deliveries[d].status {
        RowStaysExplained(events, s, t, d, w.deliveries[d].status);
      }
    }
    forall q | 0 <= q < |w'.procs| ensures PcExplained(events, s + [t], w'.procs[q]) {
      if q != p { PcStaysExplained(events, s, t, w.procs[q]); }
    }
  }

  lemma AttemptExplained(events: map<nat, Event>, s: seq<Turn>, t: Turn, w: World)
    requires w == Run(events, INIT, s) && Explained(events, s, w)
    requires t.Go? && t.proc < |w.procs| && !IsFan(w.procs[t.proc]) && !IsManual(w.procs[t.proc])
    ensures Explained(events, s + [t], Step(events, w, t))
  {
    var p, w' := t.proc, Step(events, w, t);
    var choice := Met(events, w, p, t.send, t.fault);
    assert w' == Attempt(w, p, choice);
    AttemptOneProc(w, p, choice);
    AttemptSizes(w, p, choice);
    forall d | 0 <= d < |w'.deliveries| ensures RowExplained(events, s + [t], d, w'.deliveries[d].status) {
      AttemptRowExplained(events, s, t, w, d);
    }
    forall q | 0 <= q < |w'.procs| ensures PcExplained(events, s + [t], w'.procs[q]) {
      if q == p { OwnPcExplained(events, s, t, w); } else { PcStaysExplained(events, s, t, w.procs[q]); }
    }
  }

  lemma AttemptRowExplained(events: map<nat, Event>, s: seq<Turn>, t: Turn, w: World, d: nat)
    requires w == Run(events, INIT, s) && Explained(events, s, w) && d < |w.deliveries|
    requires t.Go? && t.proc < |w.procs| && !IsFan(w.procs[t.proc]) && !IsManual(w.procs[t.proc])
    ensures var w' := Attempt(w, t.proc, Met(events, w, t.proc, t.send, t.fault));
      d < |w'.deliveries| && RowExplained(events, s + [t], d, w'.deliveries[d].status)
  {
    var p, pc := t.proc, w.procs[t.proc];
    StatusAfter(w, p, Met(events, w, p, t.send, t.fault), d);
    RowStaysExplained(events, s, t, d, w.deliveries[d].status);
    assert PcExplained(events, s, pc);
    PcStaysExplained(events, s, t, pc);
  }

  lemma OwnPcExplained(events: map<nat, Event>, s: seq<Turn>, t: Turn, w: World)
    requires w == Run(events, INIT, s)
    requires t.Go? && t.proc < |w.procs| && !IsFan(w.procs[t.proc]) && !IsManual(w.procs[t.proc])
    ensures var w' := Attempt(w, t.proc, Met(events, w, t.proc, t.send, t.fault));
      t.proc < |w'.procs| && PcExplained(events, s + [t], w'.procs[t.proc])
  {
    PcAfter(events, w, t.proc, t.send, t.fault);
    LastTurn(events, s, t);
  }

  lemma {:induction false} RunExplained(events: map<nat, Event>, schedule: seq<Turn>)
    ensures Explained(events, schedule, Run(events, INIT, schedule))
    decreases |schedule|
  {
    if schedule != [] {
      var n := |schedule| - 1;
      var s, t := schedule[..n], schedule[n];
      var w := Run(events, INIT, s);
      assert schedule == s + [t];
      RunExplained(events, s);
      RunOneMore(events, s, t);
      if t.Go? && t.proc < |w.procs| {
        if IsFan(w.procs[t.proc]) || IsManual(w.procs[t.proc]) { FanExplained(events, s, t, w); } else { AttemptExplained(events, s, t, w); }
      } else {
        IdleExplained(events, s, t, w);
      }
    }
  }

  lemma IdleExplained(events: map<nat, Event>, s: seq<Turn>, t: Turn, w: World)
    requires w == Run(events, INIT, s) && Explained(events, s, w) && !(t.Go? && t.proc < |w.procs|)
    ensures Explained(events, s + [t], Step(events, w, t))
  {
    var w' := Step(events, w, t);
    forall d | 0 <= d < |w'.deliveries| ensures RowExplained(events, s + [t], d, w'.deliveries[d].status) {
      RowStaysExplained(events, s, t, d, w.deliveries[d].status);
    }
    forall q | 0 <= q < |w'.procs| ensures PcExplained(events, s + [t], w'.procs[q]) {
      if q < |w.procs| { PcStaysExplained(events, s, t, w.procs[q]); }
    }
  }

  // ---------- theorems ----------

  /** In every run, retried, overlapping and failing attempts included, a delivered row was answered with 200 to 299. */
  lemma DeliveredWasAccepted(events: map<nat, Event>, schedule: seq<Turn>, d: nat)
    requires var w := Run(events, INIT, schedule); d < |w.deliveries| && w.deliveries[d].status == Delivered
    ensures exists k, code, count :: SentAt(events, schedule, k, d, Status(code), count) && 200 <= code <= 299
  {
    RunExplained(events, schedule);
    assert RowExplained(events, schedule, d, Delivered);
    var result, count: nat :| Sent(events, schedule, d, result, count) && Accepts(result);
    var k: nat :| SentAt(events, schedule, k, d, result, count);
    assert SentAt(events, schedule, k, d, Status(result.code), count);
  }

  /**
   * In every run a failed row was answered for good, with a number that is neither a success nor worth a retry or at the
   * seventh attempt or later, or an attempt found its endpoint inactive or missing, or its event missing.
   */
  lemma FailedWasRejected(events: map<nat, Event>, schedule: seq<Turn>, d: nat)
    requires var w := Run(events, INIT, schedule); d < |w.deliveries| && w.deliveries[d].status == Failed
    ensures Rejected(events, schedule, d)
  {
    RunExplained(events, schedule);
    assert RowExplained(events, schedule, d, Failed);
  }
}
