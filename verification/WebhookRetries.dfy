/**
 * Retries that are lost: the queue ignores an id it still holds, so once manual retries are allowed a scheduled retry
 * can vanish and leave its delivery pending with nobody to attempt it.
 */
module WebhookRetries {
  import opened Wrappers
  import opened WebhookMachine
  import opened WebhookBounds
  import opened WebhookProgress
  import opened WebhookFinality

  // ---------- when the queue holds an id ----------

  /** This turn asks the queue for this job id. */
  predicate Enqueues(w: World, t: Turn, job: JobId) {
    t.Go? && t.proc < |w.procs| && t.fault != Before &&
    match w.procs[t.proc]
    case FanEnqueue(d, _, _, _) => job == JobId(d, First)
    case AttemptEnqueue(own, count) => job == JobId(own.delivery, Retry(count))
    case ManualEnqueue(d, stamp) => job == JobId(d, Manual(stamp))
    case _ => false
  }

  /** In this turn the job leaves the queue: it ends without throwing, or had failed and is dropped. */
  predicate Leaves(w: World, t: Turn, job: JobId) {
    || (t.Go? && t.proc < |w.procs| && w.procs[t.proc] == AttemptEnd(job))
    || (t.Drop? && t.job == job && job in w.jobs && w.jobs[job] == Broken)
  }

  lemma HeldStep(events: map<nat, Event>, w: World, t: Turn, job: JobId)
    ensures job in Step(events, w, t).jobs <==> Enqueues(w, t, job) || (job in w.jobs && !Leaves(w, t, job))
  {
    if t.Go? && t.proc < |w.procs| {
      var p := t.proc;
      if IsFan(w.procs[p]) { FanJobs(events, w, p, t.fault, job); }
      else if !IsManual(w.procs[p]) { AttemptJobs(w, p, Met(events, w, p, t.send, t.fault), job); }
    }
  }

  lemma FanJobs(events: map<nat, Event>, w: World, p: nat, fault: Fault, job: JobId)
    requires p < |w.procs| && IsFan(w.procs[p])
    ensures job in Fan(events, w, p, fault).jobs <==> Enqueues(w, Go(p, NetworkError, fault), job) || job in w.jobs
  {
  }

  lemma AttemptJobs(w: World, p: nat, choice: Choice, job: JobId)
    requires p < |w.procs| && !IsFan(w.procs[p]) && !IsManual(w.procs[p])
    ensures job in Attempt(w, p, choice).jobs <==>
      Enqueues(w, Go(p, choice.send, choice.fault), job) || (job in w.jobs && w.procs[p] != AttemptEnd(job))
  {
  }

  /** Turn `k` asked for the job and in no later turn it left. */
  ghost predicate AskedAndUnfinished(events: map<nat, Event>, schedule: seq<Turn>, k: nat, job: JobId) {
    && k < |schedule| && Enqueues(Run(events, INIT, schedule[..k]), schedule[k], job)
    && forall m | k < m < |schedule| :: !Leaves(Run(events, INIT, schedule[..m]), schedule[m], job)
  }

  /** The queue holds an id exactly when some turn asked for it and the job has not left since: thrown jobs stay until dropped. */
  lemma {:induction false} HeldIff(events: map<nat, Event>, schedule: seq<Turn>, job: JobId)
    ensures job in Run(events, INIT, schedule).jobs <==> exists k :: AskedAndUnfinished(events, schedule, k, job)
    decreases |schedule|
  {
    if schedule != [] {
      var n := |schedule| - 1;
      var s, t := schedule[..n], schedule[n];
      assert schedule == s + [t];
      RunOneMore(events, s, t);
      HeldStep(events, Run(events, INIT, s), t, job);
      HeldIff(events, s, job);
      if job in Run(events, INIT, schedule).jobs {
        var k: nat := n;
        if !Enqueues(Run(events, INIT, s), t, job) { k :| AskedAndUnfinished(events, s, k, job); }
        OneTurnMore(events, s, t, k, job);
      } else {
        forall k ensures !AskedAndUnfinished(events, schedule, k, job) { OneTurnMore(events, s, t, k, job); }
      }
    }
  }

  lemma OneTurnMore(events: map<nat, Event>, s: seq<Turn>, t: Turn, k: nat, job: JobId)
    ensures AskedAndUnfinished(events, s + [t], k, job) <==>
      if k == |s| then Enqueues(Run(events, INIT, s), t, job)
      else AskedAndUnfinished(events, s, k, job) && !Leaves(Run(events, INIT, s), t, job)
  {
    var schedule := s + [t];
    assert schedule[..|s|] == s;
    if k < |s| {
      assert forall m | 0 <= m < |s| :: schedule[..m] == s[..m] && schedule[m] == s[m];
    }
  }

  // ---------- stranded deliveries ----------

  predicate HandlesByHand(pc: Pc, d: nat) {
    (pc.ManualRead? || pc.ManualReset? || pc.ManualEnqueue?) && pc.delivery == d
  }

  /** Some process is attempting, enqueuing or resetting the delivery. */
  predicate OnIt(pc: Pc, d: nat) {
    Carrying(pc) == Some(d) || HandlesByHand(pc, d)
  }

  ghost predicate NoneOnIt(w: World, d: nat, except: nat) {
    forall p | 0 <= p < |w.procs| && p != except :: !OnIt(w.procs[p], d)
  }

  ghost predicate NoJobOf(w: World, d: nat) {
    forall job | job in w.jobs && job.delivery == d :: w.jobs[job] != Queued
  }

  /** Pending, with no job in the queue and no process to move it on. */
  ghost predicate Stranded(w: World, d: nat) {
    && d < |w.deliveries| && w.deliveries[d].status == Pending && NoJobOf(w, d)
    && forall p | 0 <= p < |w.procs| :: !OnIt(w.procs[p], d)
  }

  /** The process is on the delivery, or about to take a job of it out of the queue. */
  predicate Touches(pc: Pc, d: nat) {
    OnIt(pc, d) || (pc.AttemptEnd? && pc.job.delivery == d)
  }

  /** With this fault the process lets go of its delivery and leaves no job of its own behind. */
  predicate LetsGo(w: World, pc: Pc, fault: Fault) {
    match pc
    case FanEnqueue(d, _, _, _) => fault == Before || JobId(d, First) in w.jobs
    case AttemptRead(_) => fault != NoFault
    case AttemptLoad(_, _) => fault != NoFault
    case AttemptFail(_, _) => fault == Before
    case AttemptSend(_, _) => fault != NoFault
    case AttemptWrite(_, row, result) =>
      fault == Before || (fault == After && !IsOk(result) && NextDelay(result, row.attemptCount + 1).Some?)
    case AttemptEnqueue(job, count) =>
      var retry := JobId(job.delivery, Retry(count));
      fault == Before || retry in w.jobs || (fault == After && retry == job)
    case AttemptEnd(_) => true
    case ManualRead(_, _) => fault != NoFault
    case ManualReset(_, _) => fault != NoFault
    case ManualEnqueue(d, stamp) => fault == Before || JobId(d, Manual(stamp)) in w.jobs
    case _ => false
  }

  /** The job that no longer counts after this step: it ends, or the queue keeps it as failed. */
  function Dropped(pc: Pc, fault: Fault): Option<JobId> {
    if pc.AttemptEnd? || (HoldsJob(pc) && fault != NoFault) then Some(pc.job) else None
  }

  ghost predicate NoOtherJob(w: World, d: nat, own: Option<JobId>) {
    forall job | job in w.jobs && job.delivery == d && own != Some(job) :: w.jobs[job] != Queued
  }

  /** Pending afterwards, if the process lets go of it: pending before, or reset by this step. */
  predicate LeftPending(w: World, pc: Pc, fault: Fault, d: nat)
    requires d < |w.deliveries|
  {
    w.deliveries[d].status == Pending || (pc.ManualReset? && fault != Before)
  }

  ghost predicate Strands(w: World, p: nat, fault: Fault, d: nat)
    requires p < |w.procs| && d < |w.deliveries|
  {
    && LeftPending(w, w.procs[p], fault, d) && LetsGo(w, w.procs[p], fault)
    && NoOtherJob(w, d, Dropped(w.procs[p], fault)) && NoneOnIt(w, d, p)
  }

  /**
   * A step of a fan-out, an attempt or a manual retry leaves its delivery stranded exactly when it leaves it pending and
   * lets go of it, no other job of it is queued, and no other process is on it.
   */
  lemma StrandsIff(events: map<nat, Event>, w: World, p: nat, send: SendResult, fault: Fault, d: nat)
    requires p < |w.procs| && d < |w.deliveries| && Touches(w.procs[p], d)
    ensures Stranded(Step(events, w, Go(p, send, fault)), d) <==> Strands(w, p, fault, d)
  {
    var pc := w.procs[p];
    if IsFan(pc) {
      FanStrandsIff(events, w, p, fault, d);
    } else if IsManual(pc) {
      ManualStrandsIff(w, p, fault, d);
    } else {
      var choice := Met(events, w, p, send, fault);
      if pc.AttemptEnqueue? { EnqueueStrandsIff(w, p, choice, d); }
      else if pc.AttemptEnd? { EndStrandsIff(w, p, choice, d); }
      else if pc.AttemptWrite? { WriteStrandsIff(w, p, choice, d); }
      else { EarlyStrandsIff(w, p, choice, d); }
    }
  }

  /** What decides: whether it is pending, its queued jobs, and who is on it. */
  lemma StrandedBy(w: World, w': World, p: nat, d: nat)
    requires p < |w.procs| && d < |w'.deliveries|
    requires |w'.procs| == |w.procs| && forall q | 0 <= q < |w.procs| && q != p :: w'.procs[q] == w.procs[q]
    ensures Stranded(w', d) <==>
      w'.deliveries[d].status == Pending && NoJobOf(w', d) && !OnIt(w'.procs[p], d) && NoneOnIt(w, d, p)
  {
    if NoneOnIt(w, d, p) {
      forall q | 0 <= q < |w.procs| && q != p ensures !OnIt(w'.procs[q], d) { assert w'.procs[q] == w.procs[q]; }
    } else {
      var q :| 0 <= q < |w.procs| && q != p && OnIt(w.procs[q], d);
      assert OnIt(w'.procs[q], d);
    }
  }

  lemma FanStrandsIff(events: map<nat, Event>, w: World, p: nat, fault: Fault, d: nat)
    requires p < |w.procs| && d < |w.deliveries| && IsFan(w.procs[p]) && OnIt(w.procs[p], d)
    ensures Stranded(Fan(events, w, p, fault), d) <==> Strands(w, p, fault, d)
  {
    var w' := Fan(events, w, p, fault);
    var first := JobId(d, First);
    StrandedBy(w, w', p, d);
    assert first in w'.jobs <==> fault != Before || first in w.jobs;
    assert fault != Before && first !in w.jobs ==> w'.jobs[first] == Queued;
    assert fault == Before || first in w.jobs ==> w'.jobs == w.jobs;
  }

  lemma ManualStrandsIff(w: World, p: nat, fault: Fault, d: nat)
    requires p < |w.procs| && d < |w.deliveries| && IsManual(w.procs[p]) && OnIt(w.procs[p], d)
    ensures Stranded(ManualStep(w, p, fault), d) <==> Strands(w, p, fault, d)
  {
    var w' := ManualStep(w, p, fault);
    StrandedBy(w, w', p, d);
    if w.procs[p].ManualEnqueue? {
      var job := JobId(d, Manual(w.procs[p].stamp));
      assert fault != Before && job !in w.jobs ==> job in w'.jobs && w'.jobs[job] == Queued;
      assert fault == Before || job in w.jobs ==> w'.jobs == w.jobs;
    }
  }

  lemma EnqueueStrandsIff(w: World, p: nat, choice: Choice, d: nat)
    requires p < |w.procs| && d < |w.deliveries| && w.procs[p].AttemptEnqueue? && OnIt(w.procs[p], d)
    ensures Stranded(Attempt(w, p, choice), d) <==> Strands(w, p, choice.fault, d)
  {
    var w' := Attempt(w, p, choice);
    AttemptOneProc(w, p, choice);
    StrandedBy(w, w', p, d);
    if LetsGo(w, w.procs[p], choice.fault) {
      UnqueuedRetry(w, p, choice, d);
    } else {
      QueuedRetry(w, p, choice, d);
    }
  }

  lemma QueuedRetry(w: World, p: nat, choice: Choice, d: nat)
    requires p < |w.procs| && w.procs[p].AttemptEnqueue? && OnIt(w.procs[p], d) && !LetsGo(w, w.procs[p], choice.fault)
    ensures !NoJobOf(Attempt(w, p, choice), d)
  {
    var retry := JobId(d, Retry(w.procs[p].attemptCount));
    assert retry in Attempt(w, p, choice).jobs && Attempt(w, p, choice).jobs[retry] == Queued;
  }

  lemma UnqueuedRetry(w: World, p: nat, choice: Choice, d: nat)
    requires p < |w.procs| && w.procs[p].AttemptEnqueue? && OnIt(w.procs[p], d) && LetsGo(w, w.procs[p], choice.fault)
    ensures NoJobOf(Attempt(w, p, choice), d) <==> NoOtherJob(w, d, Dropped(w.procs[p], choice.fault))
  {
    var w', job := Attempt(w, p, choice), w.procs[p].job;
    var retry := JobId(d, Retry(w.procs[p].attemptCount));
    if choice.fault == NoFault {
      assert w'.jobs == w.jobs;
    } else if choice.fault == Before || retry in w.jobs {
      assert w'.jobs == Break(w, p, job).jobs;
      BrokenJobs(w, p, job, d);
    } else {
      assert w'.jobs == w.jobs[job := Broken];
      assert forall j | j in w.jobs && j != job :: j in w'.jobs && w'.jobs[j] == w.jobs[j];
    }
  }

  lemma EndStrandsIff(w: World, p: nat, choice: Choice, d: nat)
    requires p < |w.procs| && d < |w.deliveries| && w.procs[p].AttemptEnd? && w.procs[p].job.delivery == d
    ensures Stranded(Attempt(w, p, choice), d) <==> Strands(w, p, choice.fault, d)
  {
    var w', job := Attempt(w, p, choice), w.procs[p].job;
    StrandedBy(w, w', p, d);
    assert forall j :: j in w'.jobs <==> j in w.jobs && j != job;
  }

  /** The job is kept as failed; the other jobs are as they were. */
  lemma BrokenJobs(w: World, p: nat, job: JobId, d: nat)
    requires p < |w.procs|
    ensures NoJobOf(Break(w, p, job), d) <==> NoOtherJob(w, d, Some(job))
  {
    var w' := Break(w, p, job);
    assert forall j :: j in w'.jobs <==> j in w.jobs;
    assert forall j | j in w.jobs && j != job :: w'.jobs[j] == w.jobs[j];
  }

  lemma WriteStrandsIff(w: World, p: nat, choice: Choice, d: nat)
    requires p < |w.procs| && d < |w.deliveries| && w.procs[p].AttemptWrite? && OnIt(w.procs[p], d)
    ensures Stranded(Attempt(w, p, choice), d) <==> Strands(w, p, choice.fault, d)
  {
    var pc, job := w.procs[p], w.procs[p].job;
    var row' := AfterAttempt(w.deliveries[d], pc.row, pc.result);
    var w1 := SetRow(w, d, row');
    if choice.fault == Before {
      BrokenJobs(w, p, job, d);
      StrandedBy(w, Break(w, p, job), p, d);
    } else if choice.fault == After {
      BrokenJobs(w1, p, job, d);
      StrandedBy(w, Break(w1, p, job), p, d);
    } else {
      StrandedBy(w, Goto(w1, p, AfterWrite(job, pc.row, pc.result)), p, d);
    }
  }

  lemma EarlyStrandsIff(w: World, p: nat, choice: Choice, d: nat)
    requires p < |w.procs| && d < |w.deliveries| && OnIt(w.procs[p], d)
    requires w.procs[p].AttemptRead? || w.procs[p].AttemptLoad? || w.procs[p].AttemptFail? || w.procs[p].AttemptSend?
    ensures Stranded(Attempt(w, p, choice), d) <==> Strands(w, p, choice.fault, d)
  {
    var w', job := Attempt(w, p, choice), w.procs[p].job;
    AttemptOneProc(w, p, choice);
    AttemptSizes(w, p, choice);
    StrandedBy(w, w', p, d);
    EarlyStep(w, p, choice, d);
    if choice.fault != NoFault {
      BrokenJobs(w, p, job, d);
      assert NoJobOf(w', d) <==> NoJobOf(Break(w, p, job), d);
    }
  }

  /** Before the write a failure breaks the job; otherwise the process stays on the delivery, or it is settled. */
  lemma EarlyStep(w: World, p: nat, choice: Choice, d: nat)
    requires p < |w.procs| && d < |w.deliveries| && OnIt(w.procs[p], d)
    requires w.procs[p].AttemptRead? || w.procs[p].AttemptLoad? || w.procs[p].AttemptFail? || w.procs[p].AttemptSend?
    ensures var w' := Attempt(w, p, choice);
      && p < |w'.procs| && d < |w'.deliveries|
      && (choice.fault != NoFault ==> w'.jobs == Break(w, p, w.procs[p].job).jobs && w'.procs[p] == Done)
      && (choice.fault != NoFault ==> (w'.deliveries[d].status == Pending <==>
            w.deliveries[d].status == Pending && LetsGo(w, w.procs[p], choice.fault)))
      && (choice.fault == NoFault ==> OnIt(w'.procs[p], d) || w'.deliveries[d].status != Pending)
  {
  }

  /** No other turn strands a delivery that was not. */
  lemma OthersNeverStrand(events: map<nat, Event>, w: World, t: Turn, d: nat)
    requires d < |w.deliveries| && !(t.Go? && t.proc < |w.procs| && Touches(w.procs[t.proc], d))
    ensures Stranded(Step(events, w, t), d) ==> Stranded(w, d)
  {
    var w' := Step(events, w, t);
    if t.Go? && t.proc < |w.procs| {
      OtherGoNeverStrands(events, w, t, d);
    } else if t.Pick? && t.job in w.jobs && w.jobs[t.job] == Queued {
      PickNeverStrands(events, w, t.job, d);
    } else if Stranded(w', d) {
      forall q | 0 <= q < |w.procs| ensures !OnIt(w.procs[q], d) { assert w'.procs[q] == w.procs[q]; }
    }
  }

  lemma PickNeverStrands(events: map<nat, Event>, w: World, job: JobId, d: nat)
    requires d < |w.deliveries| && job in w.jobs && w.jobs[job] == Queued
    ensures Stranded(Step(events, w, Pick(job)), d) ==> Stranded(w, d)
  {
    var w' := Step(events, w, Pick(job));
    if Stranded(w', d) {
      assert w'.procs[|w.procs|] == AttemptRead(job);
      forall q | 0 <= q < |w.procs| ensures !OnIt(w.procs[q], d) { assert w'.procs[q] == w.procs[q]; }
      forall j | j in w.jobs && j.delivery == d ensures w.jobs[j] != Queued { assert j != job && w'.jobs[j] == w.jobs[j]; }
    }
  }

  lemma OtherGoNeverStrands(events: map<nat, Event>, w: World, t: Turn, d: nat)
    requires d < |w.deliveries| && t.Go? && t.proc < |w.procs| && !Touches(w.procs[t.proc], d)
    ensures Stranded(Step(events, w, t), d) ==> Stranded(w, d)
  {
    var p, w' := t.proc, Step(events, w, t);
    if IsFan(w.procs[p]) {
      FanLeaves(events, w, p, t.fault, d);
      FanKeepsJobs(events, w, p, t.fault, d);
    } else if !IsManual(w.procs[p]) {
      AttemptLeaves(w, p, Met(events, w, p, t.send, t.fault), d);
      AttemptKeepsJobs(w, p, Met(events, w, p, t.send, t.fault), d);
    }
    if Stranded(w', d) {
      forall q | 0 <= q < |w.procs| ensures !OnIt(w.procs[q], d) {
        if q != p { assert w'.procs[q] == w.procs[q]; }
      }
    }
  }

  /** Queued jobs of a delivery stay queued while others are dealt with. */
  ghost predicate KeepsQueued(w: World, w': World, d: nat) {
    forall job | job in w.jobs && job.delivery == d && w.jobs[job] == Queued :: job in w'.jobs && w'.jobs[job] == Queued
  }

  lemma FanKeepsJobs(events: map<nat, Event>, w: World, p: nat, fault: Fault, d: nat)
    requires p < |w.procs| && IsFan(w.procs[p])
    ensures KeepsQueued(w, Fan(events, w, p, fault), d)
  {
  }

  lemma AttemptKeepsJobs(w: World, p: nat, choice: Choice, d: nat)
    requires p < |w.procs| && !Touches(w.procs[p], d)
    ensures KeepsQueued(w, Attempt(w, p, choice), d)
  {
  }

  /** A row just created is stranded exactly when the insert reports an error though it took effect. */
  lemma FreshStrandsIff(events: map<nat, Event>, w: World, p: nat, send: SendResult, fault: Fault)
    requires p < |w.procs| && w.procs[p].FanCreate? && |Step(events, w, Go(p, send, fault)).deliveries| > |w.deliveries|
    ensures var d := |w.deliveries|;
      Stranded(Step(events, w, Go(p, send, fault)), d) <==> fault == After && NoJobOf(w, d) && NoneOnIt(w, d, p)
  {
    var w', d := Step(events, w, Go(p, send, fault)), |w.deliveries|;
    FreshRow(events, w, p, fault);
    StrandedBy(w, w', p, d);
  }

  lemma FreshRow(events: map<nat, Event>, w: World, p: nat, fault: Fault)
    requires p < |w.procs| && w.procs[p].FanCreate? && |Fan(events, w, p, fault).deliveries| > |w.deliveries|
    ensures var w', d := Fan(events, w, p, fault), |w.deliveries|;
      && fault != Before && d < |w'.deliveries| && w'.deliveries[d].status == Pending && w'.jobs == w.jobs
      && |w'.procs| == |w.procs| && (forall q | 0 <= q < |w.procs| && q != p :: w'.procs[q] == w.procs[q])
      && (OnIt(w'.procs[p], d) <==> fault == NoFault)
  {
  }

  /**
   * A scheduled retry strands its delivery exactly when the queue holds its id in another state than queued, and
   * neither another job nor another process is there for the delivery.
   */
  lemma SwallowedIff(events: map<nat, Event>, w: World, p: nat, send: SendResult)
    requires p < |w.procs| && w.procs[p].AttemptEnqueue?
    requires var d := w.procs[p].job.delivery; d < |w.deliveries| && w.deliveries[d].status == Pending
    ensures var d, retry := w.procs[p].job.delivery, JobId(w.procs[p].job.delivery, Retry(w.procs[p].attemptCount));
      Stranded(Step(events, w, Go(p, send, NoFault)), d) <==> retry in w.jobs && NoJobOf(w, d) && NoneOnIt(w, d, p)
  {
    StrandsIff(events, w, p, send, NoFault, w.procs[p].job.delivery);
  }

  /** A stranded delivery stays so until someone retries it by hand, or a job of it is run a second time. */
  lemma StrandedStays(events: map<nat, Event>, w: World, t: Turn, d: nat)
    requires Stranded(w, d) && !(t.ManualRetry? && t.delivery == d) && !(t.Rerun? && t.job.delivery == d)
    ensures Stranded(Step(events, w, t), d)
  {
    if t.Go? && t.proc < |w.procs| {
      var p := t.proc;
      if IsFan(w.procs[p]) {
        FanStranded(events, w, p, t.fault, d);
      } else if IsManual(w.procs[p]) {
        ManualStranded(w, p, t.fault, d);
      } else {
        AttemptStranded(w, p, Met(events, w, p, t.send, t.fault), d);
      }
    }
  }

  /** No turn on `d` by hand, and no job of it run twice. */
  predicate LeftAlone(schedule: seq<Turn>, d: nat) {
    forall t | t in schedule :: !(t.ManualRetry? && t.delivery == d) && !(t.Rerun? && t.job.delivery == d)
  }

  lemma {:induction false} StrandedForGood(events: map<nat, Event>, w: World, schedule: seq<Turn>, d: nat)
    requires Stranded(w, d) && LeftAlone(schedule, d)
    ensures Stranded(Run(events, w, schedule), d)
    decreases |schedule|
  {
    if schedule != [] {
      assert schedule[0] in schedule;
      StrandedStays(events, w, schedule[0], d);
      StrandedForGood(events, Step(events, w, schedule[0]), schedule[1..], d);
    }
  }

  /** This turn leaves the delivery stranded. */
  ghost predicate StrandingTurn(events: map<nat, Event>, w: World, t: Turn, d: nat) {
    t.Go? && t.proc < |w.procs| &&
    if d < |w.deliveries| then Touches(w.procs[t.proc], d) && Strands(w, t.proc, t.fault, d)
    else
      && w.procs[t.proc].FanCreate? && d == |w.deliveries| < |Step(events, w, t).deliveries|
      && t.fault == After && NoJobOf(w, d) && NoneOnIt(w, d, t.proc)
  }

  lemma OnlyFanOutCreates(events: map<nat, Event>, w: World, t: Turn)
    ensures |w.deliveries| <= |Step(events, w, t).deliveries| <= |w.deliveries| + 1
    ensures |w.deliveries| < |Step(events, w, t).deliveries| ==> t.Go? && t.proc < |w.procs| && w.procs[t.proc].FanCreate?
  {
    if t.Go? && t.proc < |w.procs| && !IsFan(w.procs[t.proc]) {
      PairsUnchanged(w, t.proc, Met(events, w, t.proc, t.send, t.fault));
    }
  }

  lemma StrandedStepIff(events: map<nat, Event>, w: World, t: Turn, d: nat)
    requires !(t.ManualRetry? && t.delivery == d) && !(t.Rerun? && t.job.delivery == d)
    ensures Stranded(Step(events, w, t), d) <==> Stranded(w, d) || StrandingTurn(events, w, t, d)
  {
    OnlyFanOutCreates(events, w, t);
    if Stranded(w, d) { StrandedStays(events, w, t, d); }
    if d < |w.deliveries| {
      if t.Go? && t.proc < |w.procs| && Touches(w.procs[t.proc], d) {
        StrandsIff(events, w, t.proc, t.send, t.fault, d);
      } else {
        OthersNeverStrand(events, w, t, d);
      }
    } else if |w.deliveries| < |Step(events, w, t).deliveries| && d == |w.deliveries| {
      FreshStrandsIff(events, w, t.proc, t.send, t.fault);
    }
  }

  /** In a run without manual retries of it, a delivery ends up stranded exactly if some turn stranded it. */
  lemma {:induction false} StrandedIffSomeTurn(events: map<nat, Event>, schedule: seq<Turn>, d: nat)
    requires LeftAlone(schedule, d)
    ensures Stranded(Run(events, INIT, schedule), d) <==>
      exists k :: 0 <= k < |schedule| && StrandingTurn(events, Run(events, INIT, schedule[..k]), schedule[k], d)
    decreases |schedule|
  {
    if schedule != [] {
      var n := |schedule| - 1;
      var s, t := schedule[..n], schedule[n];
      assert schedule == s + [t] && t in schedule;
      assert LeftAlone(s, d) by { assert forall x | x in s :: x in schedule; }
      RunOneMore(events, s, t);
      StrandedStepIff(events, Run(events, INIT, s), t, d);
      StrandedIffSomeTurn(events, s, d);
      assert forall k | 0 <= k < n :: schedule[..k] == s[..k] && schedule[k] == s[k];
    }
  }

  /**
   * A fan-out that creates the row and then cannot reach the queue strands it: replaying the fan-out finds the pair
   * taken and never enqueues it, whatever else happens, until someone retries by hand.
   */
  lemma {:induction false} FanOutCanStrand() returns (schedule: seq<Turn>)
    ensures var events := map[0 := THE_EVENT];
      forall more | LeftAlone(more, 0) :: Stranded(Run(events, INIT, schedule + more), 0)
  {
    var events := map[0 := THE_EVENT];
    schedule := RowMade(events);
    schedule := Extended(events, schedule, Go(0, NetworkError, Before), Shop(FRESH, map[], [Done]));
    forall more | LeftAlone(more, 0) ensures Stranded(Run(events, INIT, schedule + more), 0) {
      RunAppend(events, INIT, schedule, more);
      StrandedForGood(events, Run(events, INIT, schedule), more, 0);
    }
  }

  lemma FanStranded(events: map<nat, Event>, w: World, p: nat, fault: Fault, d: nat)
    requires Stranded(w, d) && p < |w.procs| && IsFan(w.procs[p])
    ensures Stranded(Fan(events, w, p, fault), d)
  {
    FanLeaves(events, w, p, fault, d);
    FanAddsNone(events, w, p, fault, d);
  }

  lemma FanLeaves(events: map<nat, Event>, w: World, p: nat, fault: Fault, d: nat)
    requires p < |w.procs| && IsFan(w.procs[p]) && d < |w.deliveries|
    ensures var w' := Fan(events, w, p, fault);
      && d < |w'.deliveries| && w'.deliveries[d] == w.deliveries[d] && |w'.procs| == |w.procs|
      && (forall q | 0 <= q < |w.procs| && q != p :: w'.procs[q] == w.procs[q]) && !OnIt(w'.procs[p], d)
  {
  }

  lemma FanAddsNone(events: map<nat, Event>, w: World, p: nat, fault: Fault, d: nat)
    requires p < |w.procs| && IsFan(w.procs[p]) && !OnIt(w.procs[p], d)
    ensures forall job | job in Fan(events, w, p, fault).jobs && job.delivery == d && Fan(events, w, p, fault).jobs[job] == Queued ::
      job in w.jobs && w.jobs[job] == Queued
  {
  }

  lemma ManualStranded(w: World, p: nat, fault: Fault, d: nat)
    requires Stranded(w, d) && p < |w.procs| && IsManual(w.procs[p])
    ensures Stranded(ManualStep(w, p, fault), d)
  {
  }

  lemma AttemptStranded(w: World, p: nat, choice: Choice, d: nat)
    requires Stranded(w, d) && p < |w.procs| && !IsFan(w.procs[p]) && !IsManual(w.procs[p])
    ensures Stranded(Attempt(w, p, choice), d)
  {
    AttemptLeaves(w, p, choice, d);
    AttemptAddsNone(w, p, choice, d);
  }

  lemma AttemptAddsNone(w: World, p: nat, choice: Choice, d: nat)
    requires p < |w.procs| && !OnIt(w.procs[p], d)
    ensures forall job | job in Attempt(w, p, choice).jobs && job.delivery == d && Attempt(w, p, choice).jobs[job] == Queued ::
      job in w.jobs && w.jobs[job] == Queued
  {
  }

  lemma AttemptLeaves(w: World, p: nat, choice: Choice, d: nat)
    requires d < |w.deliveries| && p < |w.procs| && !OnIt(w.procs[p], d) && !IsFan(w.procs[p]) && !IsManual(w.procs[p])
    ensures var w' := Attempt(w, p, choice);
      && d < |w'.deliveries| && w'.deliveries[d] == w.deliveries[d] && |w'.procs| == |w.procs|
      && (forall q | 0 <= q < |w.procs| && q != p :: w'.procs[q] == w.procs[q]) && !OnIt(w'.procs[p], d)
  {
    AttemptProcs(w, p, choice);
    AttemptRows(w, p, choice);
    AttemptRowAlone(w, p, choice, d);
    AttemptStaysOff(w, p, choice, d);
  }

  lemma AttemptRowAlone(w: World, p: nat, choice: Choice, d: nat)
    requires d < |w.deliveries| && p < |w.procs| && !OnIt(w.procs[p], d)
    ensures d < |Attempt(w, p, choice).deliveries| && Attempt(w, p, choice).deliveries[d] == w.deliveries[d]
  {
  }

  lemma AttemptStaysOff(w: World, p: nat, choice: Choice, d: nat)
    requires p < |w.procs| && !OnIt(w.procs[p], d) && !IsManual(w.procs[p])
    ensures p < |Attempt(w, p, choice).procs| && !OnIt(Attempt(w, p, choice).procs[p], d)
  {
  }

  // ---------- a run in which a retry is swallowed ----------

  const TRIED := Delivery(0, 0, Pending, 1, 1, 30_000)
  const R1 := JobId(0, Retry(1))
  const BY_HAND := JobId(0, Manual(0))

  /** The store of one delivery to one endpoint. */
  function Shop(row: Delivery, jobs: map<JobId, JobState>, procs: seq<Pc>): World {
    World([row], jobs, map[0 := THE_ENDPOINT], procs, {(0, 0)})
  }

  lemma LastMoves(row: Delivery, row': Delivery, jobs: map<JobId, JobState>, procs: seq<Pc>, x: Pc, y: Pc)
    ensures Goto(SetRow(Shop(row, jobs, procs + [x]), 0, row'), |procs|, y) == Shop(row', jobs, procs + [y])
    ensures Goto(Shop(row, jobs, procs + [x]), |procs|, y) == Shop(row, jobs, procs + [y])
  {
    assert (procs + [x])[|procs| := y] == procs + [y];
    assert [row][0 := row'] == [row'];
  }

  /** A worker takes up the job, the endpoint answers 503, and the attempt is counted. */
  lemma FailedAttempt(events: map<nat, Event>, s0: seq<Turn>, jobs: map<JobId, JobState>, procs: seq<Pc>, job: JobId)
    returns (s: seq<Turn>)
    requires events == map[0 := THE_EVENT] && job in jobs && jobs[job] == Queued && job.delivery == 0
    requires Run(events, INIT, s0) == Shop(FRESH, jobs, procs)
    ensures Run(events, INIT, s) == Shop(TRIED, jobs[job := Active], procs + [AttemptEnqueue(job, 1)])
  {
    var p, active := |procs|, jobs[job := Active];
    s := Extended(events, s0, Pick(job), Shop(FRESH, active, procs + [AttemptRead(job)]));
    LastMoves(FRESH, FRESH, active, procs, AttemptRead(job), AttemptLoad(job, FRESH));
    s := Extended(events, s, Go(p, NetworkError, NoFault), Shop(FRESH, active, procs + [AttemptLoad(job, FRESH)]));
    LastMoves(FRESH, FRESH, active, procs, AttemptLoad(job, FRESH), AttemptSend(job, FRESH));
    s := Extended(events, s, Go(p, NetworkError, NoFault), Shop(FRESH, active, procs + [AttemptSend(job, FRESH)]));
    s := AnsweredBusy(events, s, active, procs, job);
  }

  lemma AnsweredBusy(events: map<nat, Event>, s0: seq<Turn>, jobs: map<JobId, JobState>, procs: seq<Pc>, job: JobId)
    returns (s: seq<Turn>)
    requires events == map[0 := THE_EVENT] && job.delivery == 0
    requires Run(events, INIT, s0) == Shop(FRESH, jobs, procs + [AttemptSend(job, FRESH)])
    ensures Run(events, INIT, s) == Shop(TRIED, jobs, procs + [AttemptEnqueue(job, 1)])
  {
    var p, sent, busy := |procs|, FRESH.(sends := 1), Status(503);
    LastMoves(FRESH, sent, jobs, procs, AttemptSend(job, FRESH), AttemptWrite(job, FRESH, busy));
    s := Extended(events, s0, Go(p, busy, NoFault), Shop(sent, jobs, procs + [AttemptWrite(job, FRESH, busy)]));
    LastMoves(sent, TRIED, jobs, procs, AttemptWrite(job, FRESH, busy), AttemptEnqueue(job, 1));
    assert AfterAttempt(sent, FRESH, busy) == TRIED;
    s := Extended(events, s, Go(p, busy, NoFault), Shop(TRIED, jobs, procs + [AttemptEnqueue(job, 1)]));
  }

  /** The retry is queued and the job ends. */
  lemma RetryQueued(events: map<nat, Event>, s0: seq<Turn>) returns (s: seq<Turn>)
    requires Run(events, INIT, s0) == Shop(TRIED, map[THE_JOB := Active], [FanCreate(0, [], 1), AttemptEnqueue(THE_JOB, 1)])
    ensures Run(events, INIT, s) == Shop(TRIED, map[R1 := Queued], [FanCreate(0, [], 1), Done])
  {
    var next := Go(1, NetworkError, NoFault);
    s := Extended(events, s0, next,
                  Shop(TRIED, map[THE_JOB := Active, R1 := Queued], [FanCreate(0, [], 1), AttemptEnd(THE_JOB)]));
    assert map[THE_JOB := Active, R1 := Queued] - {THE_JOB} == map[R1 := Queued];
    s := Extended(events, s, next, Shop(TRIED, map[R1 := Queued], [FanCreate(0, [], 1), Done]));
  }

  /** The retry's own job throws, and the queue keeps it. */
  lemma RetryThrows(events: map<nat, Event>, s0: seq<Turn>) returns (s: seq<Turn>)
    requires Run(events, INIT, s0) == Shop(TRIED, map[R1 := Queued], [FanCreate(0, [], 1), Done])
    ensures Run(events, INIT, s) == Shop(TRIED, map[R1 := Broken], [FanCreate(0, [], 1), Done, Done])
  {
    s := Extended(events, s0, Pick(R1), Shop(TRIED, map[R1 := Active], [FanCreate(0, [], 1), Done, AttemptRead(R1)]));
    s := Extended(events, s, Go(2, NetworkError, Before), Shop(TRIED, map[R1 := Broken], [FanCreate(0, [], 1), Done, Done]));
  }

  lemma RetryAsked(events: map<nat, Event>, s0: seq<Turn>) returns (s: seq<Turn>)
    requires Run(events, INIT, s0) == Shop(TRIED, map[R1 := Broken], [FanCreate(0, [], 1), Done, Done])
    ensures Run(events, INIT, s) == Shop(TRIED, map[R1 := Broken], [FanCreate(0, [], 1), Done, Done, ManualReset(0, 0)])
  {
    var jobs, procs := map[R1 := Broken], [FanCreate(0, [], 1), Done, Done];
    s := Extended(events, s0, ManualRetry(0, 0), Shop(TRIED, jobs, procs + [ManualRead(0, 0)]));
    s := Extended(events, s, Go(3, NetworkError, NoFault), Shop(TRIED, jobs, procs + [ManualReset(0, 0)]));
  }

  /** The merchant retries by hand. */
  lemma RetriedByHand(events: map<nat, Event>, s0: seq<Turn>) returns (s: seq<Turn>)
    requires Run(events, INIT, s0) == Shop(TRIED, map[R1 := Broken], [FanCreate(0, [], 1), Done, Done])
    ensures Run(events, INIT, s) == Shop(FRESH, map[R1 := Broken, BY_HAND := Queued], [FanCreate(0, [], 1), Done, Done, Done])
  {
    var jobs, procs, next := map[R1 := Broken], [FanCreate(0, [], 1), Done, Done], Go(3, NetworkError, NoFault);
    s := RetryAsked(events, s0);
    s := Extended(events, s, next, Shop(FRESH, jobs, procs + [ManualEnqueue(0, 0)]));
    s := Extended(events, s, next, Shop(FRESH, map[R1 := Broken, BY_HAND := Queued], procs + [Done]));
  }

  /**
   * Retry one throws and is kept; a manual retry starts over and fails once more; its retry has the kept id, the queue
   * ignores it, and though no operation of the manual retry failed the delivery is stranded.
   */
  lemma {:induction false} ManualRetryCanBeLost() returns (schedule: seq<Turn>, t: Turn)
    ensures var events := map[0 := THE_EVENT]; var w := Run(events, INIT, schedule);
      && t == Go(4, NetworkError, NoFault) && 4 < |w.procs| && w.procs[4] == AttemptEnqueue(BY_HAND, 1)
      && Stranded(Run(events, INIT, schedule + [t]), 0)
  {
    var events := map[0 := THE_EVENT];
    schedule := FannedOut(events);
    schedule := FailedAttempt(events, schedule, map[THE_JOB := Queued], [FanCreate(0, [], 1)], THE_JOB);
    assert map[THE_JOB := Queued][THE_JOB := Active] == map[THE_JOB := Active];
    schedule := RetryQueued(events, schedule);
    schedule := RetryThrows(events, schedule);
    schedule := RetriedByHand(events, schedule);
    schedule := FailedAttempt(events, schedule, map[R1 := Broken, BY_HAND := Queued], [FanCreate(0, [], 1), Done, Done, Done], BY_HAND);
    t := Go(4, NetworkError, NoFault);
    RunOneMore(events, schedule, t);
    SwallowedIff(events, Run(events, INIT, schedule), 4, NetworkError);
  }
}
