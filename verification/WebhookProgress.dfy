/**
 * Delivery progress: with every job run once, no failures of store, queue or secret, and no
 * manual retry, each pending delivery is carried by exactly one job until it is settled.
 */
module WebhookProgress {
  import opened Wrappers
  import opened WebhookConstants
  import opened WebhookMachine
  import opened WebhookBounds

  predicate Orderly(t: Turn) {
    !t.Rerun? && !t.ManualRetry? && (t.Go? ==> t.fault == NoFault)
  }

  predicate AllOrderly(schedule: seq<Turn>) {
    forall i | 0 <= i < |schedule| :: Orderly(schedule[i])
  }

  // ---------- the invariant ----------

  /** How many attempts the job with this tag follows. */
  function Number(tag: Tag): nat {
    match tag
    case First => 0
    case Retry(n) => n
    case Manual(_) => 0
  }

  /** The job that carries a delivery after `n` attempts. */
  function TagAfter(n: nat): Tag {
    if n == 0 then First else Retry(n)
  }

  predicate QueuedFor(w: World, d: nat) {
    d < |w.deliveries| && var job := JobId(d, TagAfter(w.deliveries[d].attemptCount)); job in w.jobs && w.jobs[job] == Queued
  }

  /** The delivery this process will yet move on: being fanned out, attempted, or requeued. */
  function Carrying(pc: Pc): Option<nat> {
    match pc
    case FanEnqueue(d, _, _, _) => Some(d)
    case AttemptRead(job) => Some(job.delivery)
    case AttemptLoad(job, _) => Some(job.delivery)
    case AttemptFail(job, _) => Some(job.delivery)
    case AttemptSend(job, _) => Some(job.delivery)
    case AttemptWrite(job, _, _) => Some(job.delivery)
    case AttemptEnqueue(job, _) => Some(job.delivery)
    case _ => None
  }

  predicate HoldsJob(pc: Pc) {
    pc.AttemptRead? || Reading(pc) || pc.AttemptEnqueue? || pc.AttemptEnd?
  }

  /** No job of this delivery has a number of `n` or more. */
  predicate JobsBelow(w: World, d: nat, n: nat) {
    forall job | job in w.jobs && job.delivery == d :: Number(job.tag) < n
  }

  /** A carried delivery is pending and has no queued job beside its carrier. */
  predicate CarriedOk(w: World, d: nat) {
    d < |w.deliveries| && w.deliveries[d].status == Pending && !QueuedFor(w, d)
  }

  predicate PcOk(w: World, pc: Pc) {
    && (Carrying(pc).Some? ==> CarriedOk(w, Carrying(pc).value))
    && (HoldsJob(pc) ==> pc.job.delivery < |w.deliveries|)
    && (pc.AttemptRead? || Reading(pc) ==>
          pc.job.tag == TagAfter(w.deliveries[pc.job.delivery].attemptCount))
    && (Reading(pc) ==> pc.row.attemptCount == w.deliveries[pc.job.delivery].attemptCount)
    && (pc.AttemptEnqueue? || pc.AttemptEnd? ==> Number(pc.job.tag) < w.deliveries[pc.job.delivery].attemptCount)
    && (pc.AttemptEnqueue? ==>
          pc.attemptCount == w.deliveries[pc.job.delivery].attemptCount && JobsBelow(w, pc.job.delivery, pc.attemptCount))
    && (pc.FanEnqueue? ==> w.deliveries[pc.delivery].attemptCount == 0 && JobsBelow(w, pc.delivery, 0))
    && !IsManual(pc)
  }

  /** Jobs belong to existing deliveries, and a queued one carries a pending delivery at its present count. */
  predicate JobOk(w: World, job: JobId)
    requires job in w.jobs
  {
    && job.delivery < |w.deliveries| && Number(job.tag) <= w.deliveries[job.delivery].attemptCount && w.jobs[job] != Broken
    && (w.jobs[job] == Queued ==>
          w.deliveries[job.delivery].status == Pending && job.tag == TagAfter(w.deliveries[job.delivery].attemptCount))
  }

  ghost predicate Carried(w: World, d: nat) {
    exists p :: 0 <= p < |w.procs| && Carrying(w.procs[p]) == Some(d)
  }

  predicate DelayOk(d: Delivery) {
    && CountOk(d) && d.waited <= TotalDelay(6)
    && (d.status == Pending ==> d.waited == TotalDelay(d.attemptCount))
  }

  ghost predicate ProcsOk(w: World) {
    && (forall p | 0 <= p < |w.procs| :: PcOk(w, w.procs[p]))
    && (forall p, q | 0 <= p < q < |w.procs| && Carrying(w.procs[p]).Some? :: Carrying(w.procs[p]) != Carrying(w.procs[q]))
  }

  ghost predicate Inv(w: World) {
    && ProcsOk(w)
    && (forall job | job in w.jobs :: JobOk(w, job))
    && (forall d | 0 <= d < |w.deliveries| :: DelayOk(w.deliveries[d]))
    && (forall d | 0 <= d < |w.deliveries| && w.deliveries[d].status == Pending :: QueuedFor(w, d) || Carried(w, d))
  }

  // ---------- preservation, one kind of move at a time ----------

  /** The carrier rewrites its delivery's row, by at most one attempt more. */
  lemma RowMove(w: World, p: nat, d: nat, row: Delivery, pc: Pc)
    requires Inv(w) && p < |w.procs| && Carrying(w.procs[p]) == Some(d)
    requires d < |w.deliveries| && row.attemptCount >= w.deliveries[d].attemptCount && DelayOk(row)
    requires Carrying(pc) == if row.status == Pending then Some(d) else None
    requires PcOk(Goto(SetRow(w, d, row), p, pc), pc)
    ensures Inv(Goto(SetRow(w, d, row), p, pc))
  {
    var w' := Goto(SetRow(w, d, row), p, pc);
    assert PcOk(w, w.procs[p]);
    forall q | 0 <= q < |w.procs| && q != p ensures PcOk(w', w'.procs[q]) {
      RowMoveOther(w, w', d, w.procs[q]);
    }
    RowMoveJobs(w, w', d);
    RowMoveCarried(w, w', p, d);
  }

  lemma RowMoveOther(w: World, w': World, d: nat, pc: Pc)
    requires d < |w.deliveries| && w'.jobs == w.jobs && PcOk(w, pc) && Carrying(pc) != Some(d)
    requires |w'.deliveries| == |w.deliveries| && forall e | 0 <= e < |w.deliveries| && e != d :: w'.deliveries[e] == w.deliveries[e]
    requires w'.deliveries[d].attemptCount >= w.deliveries[d].attemptCount
    ensures PcOk(w', pc)
  {
  }

  lemma RowMoveJobs(w: World, w': World, d: nat)
    requires d < |w.deliveries| && w'.jobs == w.jobs && CarriedOk(w, d) && (forall job | job in w.jobs :: JobOk(w, job))
    requires |w'.deliveries| == |w.deliveries| && forall e | 0 <= e < |w.deliveries| && e != d :: w'.deliveries[e] == w.deliveries[e]
    requires w'.deliveries[d].attemptCount >= w.deliveries[d].attemptCount
    ensures forall job | job in w'.jobs :: JobOk(w', job)
  {
    forall job | job in w'.jobs ensures JobOk(w', job) {
      assert JobOk(w, job);
      assert w.jobs[job] == Queued ==> job == JobId(job.delivery, TagAfter(w.deliveries[job.delivery].attemptCount));
    }
  }

  lemma RowMoveCarried(w: World, w': World, p: nat, d: nat)
    requires p < |w.procs| && Carrying(w.procs[p]) == Some(d) && |w'.procs| == |w.procs| && w'.procs == w.procs[p := w'.procs[p]]
    requires d < |w.deliveries| && w'.jobs == w.jobs
    requires |w'.deliveries| == |w.deliveries| && forall e | 0 <= e < |w.deliveries| && e != d :: w'.deliveries[e] == w.deliveries[e]
    requires w'.deliveries[d].status == Pending ==> Carrying(w'.procs[p]) == Some(d)
    requires forall e | 0 <= e < |w.deliveries| && w.deliveries[e].status == Pending :: QueuedFor(w, e) || Carried(w, e)
    ensures forall e | 0 <= e < |w'.deliveries| && w'.deliveries[e].status == Pending :: QueuedFor(w', e) || Carried(w', e)
  {
    forall e | 0 <= e < |w'.deliveries| && w'.deliveries[e].status == Pending ensures QueuedFor(w', e) || Carried(w', e) {
      if e == d {
        assert Carrying(w'.procs[p]) == Some(d);
      } else if !QueuedFor(w, e) {
        var q :| 0 <= q < |w.procs| && Carrying(w.procs[q]) == Some(e);
        assert Carrying(w'.procs[q]) == Some(e);
      }
    }
  }

  /** The carrier hands its delivery to the queue; the job id is free, so the queue takes it. */
  lemma QueueMove(w: World, p: nat, d: nat, pc: Pc)
    requires Inv(w) && p < |w.procs| && Carrying(w.procs[p]) == Some(d) && Carrying(pc).None?
    requires d < |w.deliveries| && JobsBelow(w, d, if w.procs[p].FanEnqueue? then 0 else w.deliveries[d].attemptCount)
    requires w.procs[p].FanEnqueue? ==> w.deliveries[d].attemptCount == 0
    requires PcOk(Goto(w, p, pc), pc) && !pc.FanEnqueue?
    ensures var job := JobId(d, TagAfter(w.deliveries[d].attemptCount));
      job !in w.jobs && Inv(Goto(w.(jobs := Add(w.jobs, job)), p, pc))
  {
    var job := JobId(d, TagAfter(w.deliveries[d].attemptCount));
    assert PcOk(w, w.procs[p]);
    assert job !in w.jobs;
    var w' := Goto(w.(jobs := w.jobs[job := Queued]), p, pc);
    forall q | 0 <= q < |w.procs| && q != p ensures PcOk(w', w'.procs[q]) {
      QueueMoveOther(w, w', job, w.procs[q]);
    }
    assert PcOk(w', pc);
    forall j | j in w'.jobs ensures JobOk(w', j) {
      if j != job { assert JobOk(w, j); }
    }
    forall e | 0 <= e < |w'.deliveries| && w'.deliveries[e].status == Pending ensures QueuedFor(w', e) || Carried(w', e) {
      if e != d && !QueuedFor(w, e) {
        var q :| 0 <= q < |w.procs| && Carrying(w.procs[q]) == Some(e);
        assert Carrying(w'.procs[q]) == Some(e);
      }
    }
  }

  lemma QueueMoveOther(w: World, w': World, job: JobId, pc: Pc)
    requires w'.jobs == w.jobs[job := Queued] && w'.deliveries == w.deliveries && PcOk(w, pc) &&
      Carrying(pc) != Some(job.delivery)
    ensures PcOk(w', pc)
  {
  }

  /** A finished job leaves the queue; it is never the queued one. */
  lemma EndMove(w: World, p: nat, job: JobId)
    requires Inv(w) && p < |w.procs| && w.procs[p] == AttemptEnd(job)
    ensures Inv(Goto(w.(jobs := w.jobs - {job}), p, Done))
  {
    var w' := Goto(w.(jobs := w.jobs - {job}), p, Done);
    assert PcOk(w, w.procs[p]);
    assert job in w.jobs ==> JobOk(w, job);
    forall q | 0 <= q < |w.procs| && q != p ensures PcOk(w', w'.procs[q]) {
      EndMoveOther(w, w', job, w.procs[q]);
    }
    forall j | j in w'.jobs ensures JobOk(w', j) {
      assert JobOk(w, j);
    }
    forall e | 0 <= e < |w'.deliveries| && w'.deliveries[e].status == Pending ensures QueuedFor(w', e) || Carried(w', e) {
      if !QueuedFor(w, e) {
        var q :| 0 <= q < |w.procs| && Carrying(w.procs[q]) == Some(e);
        assert Carrying(w'.procs[q]) == Some(e);
      }
    }
  }

  lemma EndMoveOther(w: World, w': World, job: JobId, pc: Pc)
    requires w'.jobs == w.jobs - {job} && w'.deliveries == w.deliveries && PcOk(w, pc)
    ensures PcOk(w', pc)
  {
  }

  /** A process that carries nothing moves on without touching deliveries or jobs; new processes start the same way. */
  lemma IdleMove(w: World, w': World, p: nat, pc: Pc)
    requires Inv(w) && p <= |w.procs| && w'.procs == (if p < |w.procs| then w.procs[p := pc] else w.procs + [pc])
    requires p < |w.procs| ==> Carrying(w.procs[p]).None?
    requires w'.deliveries == w.deliveries && w'.jobs == w.jobs
    requires Carrying(pc).None? && !HoldsJob(pc) && !IsManual(pc)
    ensures Inv(w')
  {
    forall q | 0 <= q < |w'.procs| ensures PcOk(w', w'.procs[q]) {
      if q != p { assert PcOk(w, w.procs[q]); }
    }
    forall j | j in w'.jobs ensures JobOk(w', j) {
      assert JobOk(w, j);
    }
    forall e | 0 <= e < |w'.deliveries| && w'.deliveries[e].status == Pending ensures QueuedFor(w', e) || Carried(w', e) {
      if !QueuedFor(w, e) {
        var q :| 0 <= q < |w.procs| && Carrying(w.procs[q]) == Some(e);
        assert Carrying(w'.procs[q]) == Some(e);
      }
    }
  }

  /** A new row is carried by the fan-out that created it. */
  lemma CreateMove(w: World, p: nat, row: Delivery, pc: Pc)
    requires Inv(w) && p < |w.procs| && w.procs[p].FanCreate? && row.status == Pending && row.attemptCount == 0 && row.waited == 0
    requires pc.FanEnqueue? && pc.delivery == |w.deliveries|
    ensures Inv(Goto(w.(deliveries := w.deliveries + [row]), p, pc))
  {
    var w' := Goto(w.(deliveries := w.deliveries + [row]), p, pc);
    var d := |w.deliveries|;
    forall q | 0 <= q < |w.procs| && q != p ensures PcOk(w', w'.procs[q]) && Carrying(w.procs[q]) != Some(d) {
      assert PcOk(w, w.procs[q]);
      CreateMoveOther(w, w', row, w.procs[q]);
    }
    forall j | j in w'.jobs ensures JobOk(w', j) && j.delivery != d {
      assert JobOk(w, j);
    }
    assert PcOk(w', pc);
    ScheduleIsBounded(0);
    forall e | 0 <= e < |w'.deliveries| && w'.deliveries[e].status == Pending ensures QueuedFor(w', e) || Carried(w', e) {
      if e == d {
        assert Carrying(w'.procs[p]) == Some(e);
      } else if !QueuedFor(w, e) {
        var q :| 0 <= q < |w.procs| && Carrying(w.procs[q]) == Some(e);
        assert Carrying(w'.procs[q]) == Some(e);
      }
    }
  }

  lemma CreateMoveOther(w: World, w': World, row: Delivery, pc: Pc)
    requires w'.deliveries == w.deliveries + [row] && w'.jobs == w.jobs && PcOk(w, pc)
    ensures PcOk(w', pc)
  {
    if Carrying(pc).Some? {
      var e := Carrying(pc).value;
      assert w'.deliveries[e] == w.deliveries[e];
    }
  }

  /** A worker takes up a queued job: its delivery is carried instead of queued. */
  lemma PickMove(w: World, job: JobId)
    requires Inv(w) && job in w.jobs && w.jobs[job] == Queued
    ensures Inv(Spawn(w.(jobs := w.jobs[job := Active]), AttemptRead(job)))
  {
    var w' := Spawn(w.(jobs := w.jobs[job := Active]), AttemptRead(job));
    var d := job.delivery;
    assert JobOk(w, job) && QueuedFor(w, d);
    forall q | 0 <= q < |w.procs| ensures PcOk(w', w'.procs[q]) && Carrying(w.procs[q]) != Some(d) {
      assert PcOk(w, w.procs[q]);
      PickMoveOther(w, w', job, w.procs[q]);
    }
    forall j | j in w'.jobs ensures JobOk(w', j) {
      assert JobOk(w, j);
    }
    assert PcOk(w', AttemptRead(job));
    forall e | 0 <= e < |w'.deliveries| && w'.deliveries[e].status == Pending ensures QueuedFor(w', e) || Carried(w', e) {
      if e == d {
        assert Carrying(w'.procs[|w.procs|]) == Some(e);
      } else if !QueuedFor(w, e) {
        var q :| 0 <= q < |w.procs| && Carrying(w.procs[q]) == Some(e);
        assert Carrying(w'.procs[q]) == Some(e);
      }
    }
  }

  lemma PickMoveOther(w: World, w': World, job: JobId, pc: Pc)
    requires w'.jobs == w.jobs[job := Active] && job in w.jobs && w'.deliveries == w.deliveries && PcOk(w, pc)
    ensures PcOk(w', pc)
  {
  }

  // ---------- all moves ----------

  lemma FanMove(events: map<nat, Event>, w: World, p: nat)
    requires Inv(w) && p < |w.procs| && IsFan(w.procs[p])
    ensures Inv(Fan(events, w, p, NoFault))
  {
    match w.procs[p]
    case FanRead(event, order) => FanReadMove(events, w, p, event, order);
    case FanCreate(event, rest, created) => FanCreateMove(events, w, p, event, rest, created);
    case FanEnqueue(d, event, rest, created) => FanEnqueueMove(events, w, p, d, event, rest, created);
  }

  lemma FanReadMove(events: map<nat, Event>, w: World, p: nat, event: nat, order: seq<nat>)
    requires Inv(w) && p < |w.procs| && w.procs[p] == FanRead(event, order)
    ensures Inv(Fan(events, w, p, NoFault))
  {
    IdleMove(w, Fan(events, w, p, NoFault), p, Fan(events, w, p, NoFault).procs[p]);
  }

  lemma FanCreateMove(events: map<nat, Event>, w: World, p: nat, event: nat, rest: seq<nat>, created: nat)
    requires Inv(w) && p < |w.procs| && w.procs[p] == FanCreate(event, rest, created)
    ensures Inv(Fan(events, w, p, NoFault))
  {
    FanCreateStep(events, w, p, event, rest, created);
    if rest == [] || PairTaken(w, rest[0], event) {
      var pc := Fan(events, w, p, NoFault).procs[p];
      IdleMove(w, Goto(w, p, pc), p, pc);
    } else {
      CreateMove(w, p, Delivery(rest[0], event, Pending, 0, 0, 0), FanEnqueue(|w.deliveries|, event, rest[1..], created + 1));
    }
  }

  lemma FanCreateStep(events: map<nat, Event>, w: World, p: nat, event: nat, rest: seq<nat>, created: nat)
    requires p < |w.procs| && w.procs[p] == FanCreate(event, rest, created)
    ensures var w' := Fan(events, w, p, NoFault);
      if rest == [] || PairTaken(w, rest[0], event) then
        p < |w'.procs| && w' == Goto(w, p, w'.procs[p]) && (w'.procs[p].FanDone? || w'.procs[p].FanCreate?)
      else w' == Goto(w.(deliveries := w.deliveries + [Delivery(rest[0], event, Pending, 0, 0, 0)]), p,
                      FanEnqueue(|w.deliveries|, event, rest[1..], created + 1))
  {
  }

  lemma FanEnqueueMove(events: map<nat, Event>, w: World, p: nat, d: nat, event: nat, rest: seq<nat>, created: nat)
    requires Inv(w) && p < |w.procs| && w.procs[p] == FanEnqueue(d, event, rest, created)
    ensures Inv(Fan(events, w, p, NoFault)) && JobId(d, First) !in w.jobs
  {
    assert PcOk(w, w.procs[p]);
    QueueMove(w, p, d, FanCreate(event, rest, created));
  }

  /** The row after an attempt has its delay right, and is still pending exactly when a retry is due. */
  lemma AttemptedRow(now: Delivery, row: Delivery, result: SendResult)
    requires DelayOk(now) && now.status == Pending && row.attemptCount == now.attemptCount
    ensures DelayOk(AfterAttempt(now, row, result))
    ensures AfterAttempt(now, row, result).status == Pending <==> !IsOk(result) && NextDelay(result, row.attemptCount + 1).Some?
  {
    ScheduleIsBounded(row.attemptCount + 1);
    ScheduleIsBounded(row.attemptCount);
  }

  lemma WriteMove(w: World, p: nat, job: JobId, row: Delivery, result: SendResult, choice: Choice)
    requires Inv(w) && p < |w.procs| && w.procs[p] == AttemptWrite(job, row, result) && choice.fault == NoFault
    ensures Inv(Attempt(w, p, choice))
  {
    var d := job.delivery;
    assert PcOk(w, w.procs[p]) && DelayOk(w.deliveries[d]);
    var row' := AfterAttempt(w.deliveries[d], row, result);
    AttemptedRow(w.deliveries[d], row, result);
    var pc := AfterWrite(job, row, result);
    var w' := Goto(SetRow(w, d, row'), p, pc);
    forall j | j in w.jobs && j.delivery == d ensures Number(j.tag) < row'.attemptCount {
      assert JobOk(w, j);
    }
    assert PcOk(w', pc);
    RowMove(w, p, d, row', pc);
  }

  lemma LoadMove(w: World, p: nat, job: JobId, row: Delivery, choice: Choice)
    requires Inv(w) && p < |w.procs| && w.procs[p] == AttemptLoad(job, row) && choice.fault == NoFault
    ensures Inv(Attempt(w, p, choice))
  {
    var d := job.delivery;
    assert PcOk(w, w.procs[p]) && DelayOk(w.deliveries[d]);
    assert SetRow(w, d, w.deliveries[d]) == w;
    RowMove(w, p, d, w.deliveries[d], if choice.gone then AttemptFail(job, row) else AttemptSend(job, row));
  }

  lemma FailMove(w: World, p: nat, job: JobId, row: Delivery, choice: Choice)
    requires Inv(w) && p < |w.procs| && w.procs[p] == AttemptFail(job, row) && choice.fault == NoFault
    ensures Inv(Attempt(w, p, choice))
  {
    var d := job.delivery;
    assert PcOk(w, w.procs[p]) && DelayOk(w.deliveries[d]);
    FailedRow(w, p, job, row);
    RowMove(w, p, d, w.deliveries[d].(status := Failed, attemptCount := row.attemptCount + 1), AttemptEnd(job));
    FailStep(w, p, job, row, choice);
  }

  lemma FailStep(w: World, p: nat, job: JobId, row: Delivery, choice: Choice)
    requires p < |w.procs| && w.procs[p] == AttemptFail(job, row) && choice.fault == NoFault && job.delivery < |w.deliveries|
    ensures var d := job.delivery;
      Attempt(w, p, choice) ==
        Goto(SetRow(w, d, w.deliveries[d].(status := Failed, attemptCount := row.attemptCount + 1)), p, AttemptEnd(job))
  {
  }

  lemma FailedRow(w: World, p: nat, job: JobId, row: Delivery)
    requires p < |w.procs| && PcOk(w, AttemptFail(job, row)) && DelayOk(w.deliveries[job.delivery])
    ensures var d, pc := job.delivery, AttemptEnd(job);
      var now' := w.deliveries[d].(status := Failed, attemptCount := row.attemptCount + 1);
      DelayOk(now') && PcOk(Goto(SetRow(w, d, now'), p, pc), pc)
  {
    ScheduleIsBounded(row.attemptCount);
  }

  lemma ReadMove(w: World, p: nat, job: JobId, choice: Choice)
    requires Inv(w) && p < |w.procs| && w.procs[p] == AttemptRead(job) && choice.fault == NoFault
    ensures Inv(Attempt(w, p, choice))
  {
    var d := job.delivery;
    assert PcOk(w, w.procs[p]) && DelayOk(w.deliveries[d]);
    assert SetRow(w, d, w.deliveries[d]) == w;
    RowMove(w, p, d, w.deliveries[d], AttemptLoad(job, w.deliveries[d]));
  }

  lemma SendMove(w: World, p: nat, job: JobId, row: Delivery, choice: Choice)
    requires Inv(w) && p < |w.procs| && w.procs[p] == AttemptSend(job, row) && choice.fault == NoFault
    ensures Inv(Attempt(w, p, choice))
  {
    var d, pc := job.delivery, AttemptWrite(job, row, choice.send);
    assert PcOk(w, w.procs[p]) && DelayOk(w.deliveries[d]);
    SentRow(w, p, job, row, choice.send);
    RowMove(w, p, d, w.deliveries[d].(sends := w.deliveries[d].sends + 1), pc);
    SendStep(w, p, job, row, choice);
  }

  lemma SendStep(w: World, p: nat, job: JobId, row: Delivery, choice: Choice)
    requires p < |w.procs| && w.procs[p] == AttemptSend(job, row) && choice.fault == NoFault && job.delivery < |w.deliveries|
    ensures var d := job.delivery;
      Attempt(w, p, choice) ==
        Goto(SetRow(w, d, w.deliveries[d].(sends := w.deliveries[d].sends + 1)), p, AttemptWrite(job, row, choice.send))
  {
  }

  lemma SentRow(w: World, p: nat, job: JobId, row: Delivery, result: SendResult)
    requires p < |w.procs| && PcOk(w, AttemptSend(job, row)) && DelayOk(w.deliveries[job.delivery])
    ensures var d, pc := job.delivery, AttemptWrite(job, row, result);
      var now' := w.deliveries[d].(sends := w.deliveries[d].sends + 1);
      DelayOk(now') && PcOk(Goto(SetRow(w, d, now'), p, pc), pc)
  {
  }

  lemma AttemptMove(w: World, p: nat, choice: Choice)
    requires Inv(w) && p < |w.procs| && choice.fault == NoFault
    ensures Inv(Attempt(w, p, choice))
  {
    assert PcOk(w, w.procs[p]);
    match w.procs[p]
    case AttemptRead(job) => ReadMove(w, p, job, choice);
    case AttemptLoad(job, row) => LoadMove(w, p, job, row, choice);
    case AttemptFail(job, row) => FailMove(w, p, job, row, choice);
    case AttemptSend(job, row) => SendMove(w, p, job, row, choice);
    case AttemptWrite(job, row, result) => WriteMove(w, p, job, row, result, choice);
    case AttemptEnqueue(job, count) => QueueMove(w, p, job.delivery, AttemptEnd(job));
    case AttemptEnd(job) => EndMove(w, p, job);
    case _ =>
  }

  lemma StepKeeps(events: map<nat, Event>, w: World, t: Turn)
    requires Inv(w) && Orderly(t)
    ensures Inv(Step(events, w, t))
  {
    match t
    case FanOut(event, order) => IdleMove(w, Step(events, w, t), |w.procs|, FanRead(event, order));
    case Pick(job) => if job in w.jobs && w.jobs[job] == Queued { PickMove(w, job); }
    case SetEndpoint(_, _) => EndpointMove(w, Step(events, w, t));
    case Drop(job) => if job in w.jobs { assert JobOk(w, job); }
    case Go(p, send, fault) =>
      if p < |w.procs| {
        assert PcOk(w, w.procs[p]);
        if IsFan(w.procs[p]) { FanMove(events, w, p); } else { AttemptMove(w, p, Met(events, w, p, send, fault)); }
      }
  }

  lemma EndpointMove(w: World, w': World)
    requires Inv(w) && w'.deliveries == w.deliveries && w'.jobs == w.jobs && w'.procs == w.procs
    ensures Inv(w')
  {
    forall q | 0 <= q < |w'.procs| ensures PcOk(w', w'.procs[q]) {
      assert PcOk(w, w.procs[q]);
    }
    forall j | j in w'.jobs ensures JobOk(w', j) {
      assert JobOk(w, j);
    }
    forall e | 0 <= e < |w'.deliveries| && w'.deliveries[e].status == Pending ensures QueuedFor(w', e) || Carried(w', e) {
      if !QueuedFor(w, e) {
        var q :| 0 <= q < |w.procs| && Carrying(w.procs[q]) == Some(e);
        assert Carrying(w'.procs[q]) == Some(e);
      }
    }
  }

  lemma {:induction false} RunKeeps(events: map<nat, Event>, w: World, schedule: seq<Turn>)
    requires Inv(w) && AllOrderly(schedule)
    ensures Inv(Run(events, w, schedule))
    decreases |schedule|
  {
    if schedule != [] {
      StepKeeps(events, w, schedule[0]);
      RunKeeps(events, Step(events, w, schedule[0]), schedule[1..]);
    }
  }
}
