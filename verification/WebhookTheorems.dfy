/** What orderly delivery guarantees: one carrier per pending delivery, no swallowed retry, and an end. */
module WebhookTheorems {
  import opened Wrappers
  import opened WebhookConstants
  import opened WebhookMachine
  import opened WebhookProgress

  /**
   * A pending delivery has exactly one outstanding job: queued under the id of its present attempt count, or
   * in the hands of exactly one process, never both; a settled delivery has none.
   */
  lemma ExactlyOneCarrier(events: map<nat, Event>, schedule: seq<Turn>, d: nat)
    requires AllOrderly(schedule) && d < |Run(events, INIT, schedule).deliveries|
    ensures var w := Run(events, INIT, schedule);
      && (w.deliveries[d].status == Pending <==> QueuedFor(w, d) || Carried(w, d))
      && !(QueuedFor(w, d) && Carried(w, d))
      && (forall p, q | 0 <= p < q < |w.procs| :: !(Carrying(w.procs[p]) == Some(d) && Carrying(w.procs[q]) == Some(d)))
      && (forall job | job in w.jobs && job.delivery == d && w.jobs[job] == Queued :: job.tag == TagAfter(w.deliveries[d].attemptCount))
  {
    var w := Run(events, INIT, schedule);
    RunKeeps(events, INIT, schedule);
    if Carried(w, d) {
      var p :| 0 <= p < |w.procs| && Carrying(w.procs[p]) == Some(d);
      assert PcOk(w, w.procs[p]);
    }
    if QueuedFor(w, d) {
      assert JobOk(w, JobId(d, TagAfter(w.deliveries[d].attemptCount)));
    }
    forall job | job in w.jobs && job.delivery == d && w.jobs[job] == Queued
      ensures job.tag == TagAfter(w.deliveries[d].attemptCount)
    {
      assert JobOk(w, job);
    }
  }

  /** Whenever a process is about to add a job, the queue does not hold its id: no retry is swallowed. */
  lemma NoJobIsSwallowed(events: map<nat, Event>, schedule: seq<Turn>, p: nat)
    requires AllOrderly(schedule) && p < |Run(events, INIT, schedule).procs|
    ensures var w := Run(events, INIT, schedule);
      && (w.procs[p].FanEnqueue? ==> JobId(w.procs[p].delivery, First) !in w.jobs)
      && (w.procs[p].AttemptEnqueue? ==> JobId(w.procs[p].job.delivery, Retry(w.procs[p].attemptCount)) !in w.jobs)
  {
    var w := Run(events, INIT, schedule);
    RunKeeps(events, INIT, schedule);
    assert PcOk(w, w.procs[p]);
  }

  /** A turn leaves a delivery's attempts alone or counts exactly one more; a settled delivery is never touched again. */
  lemma AttemptsOnlyAdvance(events: map<nat, Event>, w: World, t: Turn, d: nat)
    requires Inv(w) && Orderly(t) && d < |w.deliveries|
    ensures var w' := Step(events, w, t);
      && d < |w'.deliveries|
      && w.deliveries[d].attemptCount <= w'.deliveries[d].attemptCount <= w.deliveries[d].attemptCount + 1
      && (w.deliveries[d].status != Pending ==> w'.deliveries[d] == w.deliveries[d])
      && (w.deliveries[d].attemptCount == w'.deliveries[d].attemptCount ==> w'.deliveries[d].status == w.deliveries[d].status)
  {
    if t.Go? && t.proc < |w.procs| {
      var p := t.proc;
      assert PcOk(w, w.procs[p]);
      if !IsFan(w.procs[p]) {
        AttemptRow(w, p, Met(events, w, t.proc, t.send, t.fault), d);
      }
    }
  }

  lemma AttemptRow(w: World, p: nat, choice: Choice, d: nat)
    requires p < |w.procs| && PcOk(w, w.procs[p]) && choice.fault == NoFault && d < |w.deliveries|
    ensures var w' := Attempt(w, p, choice);
      && |w'.deliveries| == |w.deliveries|
      && (w'.deliveries[d] == w.deliveries[d]
          || (&& Carrying(w.procs[p]) == Some(d) && w.deliveries[d].status == Pending
              && (|| (w.procs[p].AttemptSend? && w'.deliveries[d] == w.deliveries[d].(sends := w.deliveries[d].sends + 1))
                  || w'.deliveries[d].attemptCount == w.deliveries[d].attemptCount + 1)))
  {
  }

  /** The retry delays scheduled for one delivery never exceed 112 350 000 ms in all. */
  lemma DelaysAreBounded(events: map<nat, Event>, schedule: seq<Turn>, d: nat)
    requires AllOrderly(schedule) && d < |Run(events, INIT, schedule).deliveries|
    ensures Run(events, INIT, schedule).deliveries[d].waited <= 112_350_000
  {
    RunKeeps(events, INIT, schedule);
    ScheduleIsBounded(6);
    assert DelayOk(Run(events, INIT, schedule).deliveries[d]);
  }
}
