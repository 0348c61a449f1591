/**
 * The webhook service written as the code is: fan-out, an attempt, and a manual retry on the shared rows and queue
 * (src/modules/webhooks/webhook-delivery.service.ts).
 *
 * As for payments, other workers may run before any operation and any operation may fail, before or after it took
 * effect; `Valid` ties the store to the machine.
 */
module WebhookWorkers {
  import opened Wrappers
  import opened WebhookConstants
  import opened WebhookMachine
  import opened WebhookBounds
  import opened WebhookAnswers

  datatype Outcome = DidSkip | DidDeliver | DidFail | RetryScheduled

  datatype Failure = OperationFailed | NotFound | AlreadyDelivered

  predicate Elsewhere(turns: seq<Turn>, p: nat) {
    forall t | t in turns && t.Go? :: t.proc != p
  }

  /** What the other workers do before an operation, and how the operation ends. */
  datatype Pause = Pause(others: seq<Turn>, fault: Fault)

  /** The two operations of one round of a fan-out. */
  datatype Round = Round(create: Pause, enqueue: Pause)
  {
    predicate Others(p: nat) {
      Elsewhere(create.others, p) && Elsewhere(enqueue.others, p)
    }

    predicate Fine() {
      create.fault == NoFault && enqueue.fault == NoFault
    }
  }

  /** The operations of an attempt. */
  datatype Pauses = Pauses(read: Fault, load: Pause, fail: Pause, send: Pause, write: Pause, enqueue: Pause)
  {
    predicate Others(p: nat) {
      && Elsewhere(load.others, p) && Elsewhere(fail.others, p) && Elsewhere(send.others, p)
      && Elsewhere(write.others, p) && Elsewhere(enqueue.others, p)
    }

    /** Nobody runs in the pauses and nothing fails. */
    predicate Quiet() {
      Fine() && load.others == fail.others == send.others == write.others == enqueue.others == []
    }

    predicate Fine() {
      read == load.fault == fail.fault == send.fault == write.fault == enqueue.fault == NoFault
    }
  }

  // ---------- runs ----------

  /** Rows stay, and stay about their endpoint and event. */
  ghost predicate RowsStay(w: World, w': World) {
    |w.deliveries| <= |w'.deliveries| && forall d | 0 <= d < |w.deliveries| :: Pair(w'.deliveries[d]) == Pair(w.deliveries[d])
  }

  lemma StepStays(events: map<nat, Event>, w: World, t: Turn, p: nat)
    ensures RowsStay(w, Step(events, w, t))
    ensures p < |w.procs| && !(t.Go? && t.proc == p) ==>
      p < |Step(events, w, t).procs| && Step(events, w, t).procs[p] == w.procs[p]
  {
    if t.Go? && t.proc < |w.procs| {
      if IsFan(w.procs[t.proc]) {
        FanStays(events, w, t.proc, t.fault);
      } else {
        PairsUnchanged(w, t.proc, Met(events, w, t.proc, t.send, t.fault));
      }
    }
  }

  lemma FanStays(events: map<nat, Event>, w: World, p: nat, fault: Fault)
    requires p < |w.procs| && IsFan(w.procs[p])
    ensures RowsStay(w, Fan(events, w, p, fault))
    ensures forall q | 0 <= q < |w.procs| && q != p ::
      q < |Fan(events, w, p, fault).procs| && Fan(events, w, p, fault).procs[q] == w.procs[q]
  {
  }

  lemma {:induction false} RunStays(events: map<nat, Event>, w: World, turns: seq<Turn>, p: nat)
    ensures RowsStay(w, Run(events, w, turns))
    ensures p < |w.procs| && Elsewhere(turns, p) ==>
      p < |Run(events, w, turns).procs| && Run(events, w, turns).procs[p] == w.procs[p]
    decreases |turns|
  {
    if turns != [] {
      assert turns[0] in turns;
      StepStays(events, w, turns[0], p);
      RunStays(events, Step(events, w, turns[0]), turns[1..], p);
    }
  }

  lemma TakenStays(w: World, w': World, endpoint: nat, event: nat)
    requires RowsStay(w, w') && PairTaken(w, endpoint, event)
    ensures PairTaken(w', endpoint, event)
  {
    var d :| 0 <= d < |w.deliveries| && w.deliveries[d].endpointId == endpoint && w.deliveries[d].eventId == event;
    assert Pair(w'.deliveries[d]) == (endpoint, event);
  }

  lemma FoundIsShort(w: World, event: Event, order: seq<nat>)
    ensures |Found(w, event, order)| <= |order|
  {
  }

  /** How the answer to a `count`-th attempt must end; `DidFail` is what is left. */
  predicate Fits(outcome: Outcome, result: SendResult, count: nat) {
    outcome != DidSkip && (outcome == DidDeliver <==> Accepts(result)) && (outcome == RetryScheduled <==> AsksForMore(result, count))
  }

  /** Why an attempt that was its delivery's `count`-th may end as it did. */
  predicate Justified(outcome: Outcome, result: SendResult, gone: bool, count: nat) {
    if gone then outcome == DidFail else Fits(outcome, result, count)
  }

  /** The delay scheduled after the `count`-th failed attempt, in milliseconds. */
  function DelayAfter(count: nat): nat
    requires 1 <= count <= 6
  {
    [30_000, 120_000, 600_000, 3_600_000, 21_600_000, 86_400_000][count - 1]
  }

  /** What the update after the request makes of the row. */
  predicate Written(was: Delivery, row: Delivery, outcome: Outcome, count: nat) {
    match outcome
    case DidSkip => false
    case DidDeliver => row == was.(status := Delivered, attemptCount := count)
    case DidFail => row == was.(status := Failed, attemptCount := count)
    case RetryScheduled => 1 <= count <= 6 && row == was.(attemptCount := count, waited := was.waited + DelayAfter(count))
  }

  /** Only row `d` has changed, as that update changes it. */
  predicate Rewritten(before: seq<Delivery>, after: seq<Delivery>, d: nat, outcome: Outcome, count: nat) {
    d < |before| == |after| && after == before[d := after[d]] && Written(before[d], after[d], outcome, count)
  }

  /** Only row `d` has changed, as an attempt that nobody disturbs leaves it. */
  predicate LeftAs(before: seq<Delivery>, after: seq<Delivery>, d: nat, outcome: Outcome, gone: bool) {
    && d < |before| == |after| && after == before[d := after[d]]
    && var was, count := before[d], before[d].attemptCount + 1;
       if gone then after[d] == was.(status := Failed, attemptCount := count)
       else Written(was.(sends := was.sends + 1), after[d], outcome, count)
  }

  lemma SentAndWritten(before: seq<Delivery>, sent: seq<Delivery>, after: seq<Delivery>, d: nat, outcome: Outcome)
    requires d < |before| && sent == before[d := before[d].(sends := before[d].sends + 1)]
    requires Rewritten(sent, after, d, outcome, before[d].attemptCount + 1)
    ensures LeftAs(before, after, d, outcome, false)
  {
  }

  /** At some moment of the run the row of `d` was this one. */
  ghost predicate Held(events: map<nat, Event>, ran: seq<Turn>, d: nat, row: Delivery) {
    exists k | 0 <= k <= |ran| :: ShownAt(events, ran, k, d, row)
  }

  predicate ShownAt(events: map<nat, Event>, ran: seq<Turn>, k: nat, d: nat, row: Delivery)
    requires k <= |ran|
  {
    var w := Run(events, INIT, ran[..k]); d < |w.deliveries| && w.deliveries[d] == row
  }

  lemma HeldLater(events: map<nat, Event>, ran: seq<Turn>, ran': seq<Turn>, d: nat, row: Delivery)
    requires ran <= ran' && Held(events, ran, d, row)
    ensures Held(events, ran', d, row)
  {
    var k :| 0 <= k <= |ran| && ShownAt(events, ran, k, d, row);
    assert ran'[..k] == ran[..k];
    assert ShownAt(events, ran', k, d, row);
  }

  /** At some moment of the run, `from` or later, endpoint or event were absent, or not, as said. */
  ghost predicate SeenAs(events: map<nat, Event>, ran: seq<Turn>, from: nat, row: Delivery, gone: bool) {
    exists k :: from <= k && SeenAt(events, ran, k, row, gone)
  }

  predicate SeenAt(events: map<nat, Event>, ran: seq<Turn>, k: nat, row: Delivery, gone: bool) {
    k <= |ran| && Absent(Run(events, INIT, ran[..k]).endpoints, events, row) == gone
  }

  lemma SeenLater(events: map<nat, Event>, ran: seq<Turn>, ran': seq<Turn>, from: nat, from': nat, row: Delivery, gone: bool)
    requires from' <= from && ran <= ran' && SeenAs(events, ran, from, row, gone)
    ensures SeenAs(events, ran', from', row, gone)
  {
    var k: nat :| from <= k && SeenAt(events, ran, k, row, gone);
    assert ran'[..k] == ran[..k];
    assert SeenAt(events, ran', k, row, gone);
  }

  class WebhookStore {
    const events: map<nat, Event>
    var deliveries: seq<Delivery>
    var jobs: map<JobId, JobState>
    var endpoints: map<nat, Endpoint>
    var procs: seq<Pc>
    var selected: set<(nat, nat)>
    ghost var ran: seq<Turn>

    function Now(): World
      reads this
    {
      World(deliveries, jobs, endpoints, procs, selected)
    }

    ghost predicate Valid()
      reads this
    {
      Now() == Run(events, INIT, ran)
    }

    predicate At(p: nat, pc: Pc)
      reads this
    {
      p < |procs| && procs[p] == pc
    }

    constructor (events: map<nat, Event>)
      ensures Valid() && ran == [] && this.events == events
    {
      this.events, deliveries, jobs, endpoints, procs, selected, ran := events, [], map[], map[], [], {}, [];
    }

    method Interfere(p: nat, others: seq<Turn>)
      requires Valid() && p < |procs| && Elsewhere(others, p)
      modifies this
      ensures Valid() && ran == old(ran) + others && At(p, old(procs)[p]) && RowsStay(old(Now()), Now())
      ensures others == [] ==> Now() == old(Now())
    {
      RunAppend(events, INIT, ran, others);
      RunStays(events, Now(), others, p);
      var w := Run(events, Now(), others);
      deliveries, jobs, endpoints, procs, selected := w.deliveries, w.jobs, w.endpoints, w.procs, w.selected;
      ran := ran + others;
    }

    method Continue(p: nat, pc: Pc, ghost turn: Turn)
      requires p < |procs|
      requires Goto(Now(), p, pc) == Step(events, Run(events, INIT, ran), turn)
      modifies this`procs, this`ran
      ensures Valid() && ran == old(ran) + [turn] && procs == old(procs)[p := pc]
    {
      RunOneMore(events, ran, turn);
      procs := procs[p := pc];
      ran := ran + [turn];
    }

    // ---------- fan-out ----------

    /** `createDelivery`: nothing when the pair is taken. */
    method CreateDelivery(p: nat, event: nat, rest: seq<nat>, created: nat, fault: Fault)
      returns (r: Result<Option<nat>, Failure>)
      requires Valid() && At(p, FanCreate(event, rest, created)) && rest != []
      modifies this`deliveries, this`procs, this`ran
      ensures Valid() && old(ran) <= ran && RowsStay(old(Now()), Now())
      ensures r.Ok? ==> PairTaken(Now(), rest[0], event)
      ensures r.Err? ==> fault != NoFault
      ensures At(p, match r
                    case Ok(None) => FanCreate(event, rest[1..], created)
                    case Ok(Some(d)) => FanEnqueue(d, event, rest[1..], created + 1)
                    case Err(_) => Done)
    {
      if fault == Before {
        Continue(p, Done, Go(p, NetworkError, fault));
        return Err(OperationFailed);
      }
      if PairTaken(Now(), rest[0], event) {
        Continue(p, FanCreate(event, rest[1..], created), Go(p, NetworkError, fault));
        return Ok(None);
      }
      var d := |deliveries|;
      deliveries := deliveries + [Delivery(rest[0], event, Pending, 0, 0, 0)];
      Continue(p, if fault == After then Done else FanEnqueue(d, event, rest[1..], created + 1), Go(p, NetworkError, fault));
      assert Pair(deliveries[d]) == (rest[0], event);
      r := if fault == After then Err(OperationFailed) else Ok(Some(d));
    }

    /** The first `enqueueAttempt` of a delivery. */
    method EnqueueFirst(p: nat, d: nat, event: nat, rest: seq<nat>, created: nat, fault: Fault) returns (ok: bool)
      requires Valid() && At(p, FanEnqueue(d, event, rest, created))
      modifies this`jobs, this`procs, this`ran
      ensures Valid() && old(ran) <= ran && ok == (fault == NoFault)
      ensures At(p, if ok then FanCreate(event, rest, created) else Done) && (ok ==> JobId(d, First) in jobs)
    {
      if fault != Before && JobId(d, First) !in jobs {
        jobs := jobs[JobId(d, First) := Queued];
      }
      ok := fault == NoFault;
      Continue(p, if ok then FanCreate(event, rest, created) else Done, Go(p, NetworkError, fault));
    }

    /** One round of the loop: if it does not throw, the endpoint has its delivery afterwards, made here or before. */
    method FanOutTo(p: nat, event: nat, rest: seq<nat>, created: nat, gap: Round) returns (r: Result<nat, Failure>)
      requires Valid() && At(p, FanCreate(event, rest, created)) && rest != [] && gap.Others(p)
      modifies this
      ensures Valid() && old(ran) <= ran && RowsStay(old(Now()), Now())
      ensures r.Ok? ==>
        PairTaken(Now(), rest[0], event) && At(p, FanCreate(event, rest[1..], r.value)) && r.value in {created, created + 1}
      ensures r.Err? ==> At(p, Done) && !gap.Fine()
    {
      Interfere(p, gap.create.others);
      var delivery := CreateDelivery(p, event, rest, created, gap.create.fault);
      if delivery.Err? { return Err(delivery.error); }
      if delivery.value.None? { return Ok(created); }
      ghost var w := Now();
      Interfere(p, gap.enqueue.others);
      var ok := EnqueueFirst(p, delivery.value.value, event, rest[1..], created + 1, gap.enqueue.fault);
      if !ok { return Err(OperationFailed); }
      TakenStays(w, Now(), rest[0], event);
      r := Ok(created + 1);
    }

    /** The query for active subscribed endpoints. */
    method FindEndpoints(p: nat, event: nat, order: seq<nat>) returns (found: seq<nat>)
      requires Valid() && At(p, FanRead(event, order)) && event in events
      modifies this`selected, this`procs, this`ran
      ensures Valid() && old(ran) <= ran && At(p, FanCreate(event, found, 0)) && RowsStay(old(Now()), Now())
      ensures |found| <= |order| && forall id :: id in found <==> id in order && Subscribed(old(Now()), id, events[event])
    {
      found := Found(Now(), events[event], order);
      FoundIsShort(Now(), events[event], order);
      selected := selected + set id | id in found :: (id, event);
      Continue(p, FanCreate(event, found, 0), Go(p, NetworkError, NoFault));
    }

    /**
     * `fanoutEvent` and `enqueueDeliveries`: when it returns, every endpoint that was active and subscribed when read
     * has a delivery of the event, whatever other fan-outs did meanwhile. It throws only if an operation failed.
     */
    method EnqueueDeliveries(p: nat, event: nat, order: seq<nat>, fault: Fault, gaps: seq<Round>)
      returns (r: Result<nat, Failure>)
      requires Valid() && At(p, FanRead(event, order)) && forall id | id in endpoints :: id in order
      requires |gaps| == |order| && forall g | g in gaps :: g.Others(p)
      modifies this
      ensures Valid() && old(ran) <= ran && At(p, if r.Ok? then FanDone(event, r.value) else Done)
      ensures event !in events ==> deliveries == old(deliveries) && jobs == old(jobs) && (r.Ok? ==> r.value == 0)
      ensures r.Ok? && event in events ==> forall id | Listens(old(endpoints), id, events[event]) ::
        exists d :: 0 <= d < |deliveries| && deliveries[d].endpointId == id && deliveries[d].eventId == event
      ensures r.Err? ==> fault != NoFault || exists g | g in gaps :: !g.Fine()
    {
      if fault != NoFault {
        Continue(p, Done, Go(p, NetworkError, fault));
        return Err(OperationFailed);
      }
      if event !in events {
        Continue(p, FanDone(event, 0), Go(p, NetworkError, NoFault));
        return Ok(0);
      }
      var found := FindEndpoints(p, event, order);
      var created := 0;
      var i := 0;
      while i < |found|
        invariant i <= |found| <= |gaps| && Valid() && old(ran) <= ran && At(p, FanCreate(event, found[i..], created))
        invariant forall k | 0 <= k < i :: PairTaken(Now(), found[k], event)
      {
        assert gaps[i] in gaps;
        ghost var w := Now();
        var round := FanOutTo(p, event, found[i..], created, gaps[i]);
        if round.Err? { return Err(round.error); }
        created := round.value;
        forall k | 0 <= k < i ensures PairTaken(Now(), found[k], event) {
          TakenStays(w, Now(), found[k], event);
        }
        assert found[i..][1..] == found[i + 1..];
        i := i + 1;
      }
      ghost var w := Now();
      Continue(p, FanDone(event, created), Go(p, NetworkError, NoFault));
      forall k | 0 <= k < |found| ensures PairTaken(Now(), found[k], event) {
        TakenStays(w, Now(), found[k], event);
      }
      forall id | Listens(old(endpoints), id, events[event])
        ensures exists d :: 0 <= d < |deliveries| && deliveries[d].endpointId == id && deliveries[d].eventId == event
      {
        assert id in found;
        assert PairTaken(Now(), id, event);
      }
      r := Ok(created);
    }

    // ---------- attempts ----------

    /** The queue does not count the job as queued or under way: it keeps a thrown job as failed. */
    predicate Kept(job: JobId)
      reads this
    {
      job in jobs ==> jobs[job] == Broken
    }

    /** The job throws. */
    method Throw(p: nat, job: JobId, ghost turn: Turn)
      requires p < |procs| && Break(Now(), p, job) == Step(events, Run(events, INIT, ran), turn)
      modifies this`jobs, this`procs, this`ran
      ensures Valid() && ran == old(ran) + [turn] && At(p, Done) && Kept(job)
    {
      if job in jobs {
        jobs := jobs[job := Broken];
      }
      Continue(p, Done, turn);
    }

    method ReadForAttempt(p: nat, job: JobId, fault: Fault) returns (r: Result<Option<Delivery>, Failure>)
      requires Valid() && At(p, AttemptRead(job))
      modifies this`jobs, this`procs, this`ran
      ensures Valid() && old(ran) <= ran && (r.Err? <==> fault != NoFault) && (r.Err? ==> At(p, Done) && Kept(job))
      ensures r.Ok? ==>
        && At(p, if r.value.Some? then AttemptLoad(job, r.value.value) else AttemptEnd(job))
        && (r.value.Some? <==> job.delivery < |deliveries| && deliveries[job.delivery].status == Pending)
        && (r.value.Some? ==> r.value.value == deliveries[job.delivery] && r.value.value.attemptCount <= 6)
        && jobs == old(jobs)
    {
      CountsOfRun(events, INIT, ran);
      if fault != NoFault {
        Throw(p, job, Go(p, NetworkError, fault));
        return Err(OperationFailed);
      }
      if job.delivery >= |deliveries| || deliveries[job.delivery].status != Pending {
        Continue(p, AttemptEnd(job), Go(p, NetworkError, NoFault));
        return Ok(None);
      }
      r := Ok(Some(deliveries[job.delivery]));
      Continue(p, AttemptLoad(job, deliveries[job.delivery]), Go(p, NetworkError, NoFault));
    }

    /** Load endpoint and event; true when one is missing or the endpoint inactive. */
    method LoadTargets(p: nat, job: JobId, row: Delivery, fault: Fault) returns (r: Result<bool, Failure>)
      requires Valid() && At(p, AttemptLoad(job, row))
      modifies this`jobs, this`procs, this`ran
      ensures Valid() && old(ran) <= ran && (r.Err? <==> fault != NoFault)
      ensures r.Err? ==> At(p, Done) && Kept(job)
      ensures r.Ok? ==> r.value == Absent(endpoints, events, row)
      ensures r.Ok? ==>
        SeenAs(events, ran, |old(ran)|, row, r.value) && At(p, if r.value then AttemptFail(job, row) else AttemptSend(job, row))
    {
      if fault != NoFault {
        Throw(p, job, Go(p, NetworkError, fault));
        return Err(OperationFailed);
      }
      var gone := row.endpointId !in endpoints || !endpoints[row.endpointId].active || row.eventId !in events;
      ghost var was := ran;
      assert was[..|was|] == was && SeenAt(events, was, |was|, row, gone);
      Continue(p, if gone then AttemptFail(job, row) else AttemptSend(job, row), Go(p, NetworkError, NoFault));
      SeenLater(events, was, ran, |was|, |was|, row, gone);
      r := Ok(gone);
    }

    /** `markFailed`. */
    method MarkFailed(p: nat, job: JobId, row: Delivery, fault: Fault) returns (ok: bool)
      requires Valid() && At(p, AttemptFail(job, row)) && job.delivery < |deliveries|
      modifies this`deliveries, this`jobs, this`procs, this`ran
      ensures Valid() && old(ran) <= ran && |deliveries| == |old(deliveries)| && ok == (fault == NoFault)
      ensures if ok then At(p, AttemptEnd(job)) else At(p, Done) && Kept(job)
      ensures fault != Before ==>
        deliveries == old(deliveries)[job.delivery := old(deliveries)[job.delivery].(status := Failed, attemptCount := row.attemptCount + 1)]
    {
      var d, turn := job.delivery, Go(p, NetworkError, fault);
      ok := fault == NoFault;
      if fault != Before {
        deliveries := deliveries[d := deliveries[d].(status := Failed, attemptCount := row.attemptCount + 1)];
      }
      if ok { Continue(p, AttemptEnd(job), turn); } else { Throw(p, job, turn); }
    }

    /** `send`; it throws only when the secret cannot be decrypted, before anything is sent. */
    method Send(p: nat, job: JobId, row: Delivery, result: SendResult, fault: Fault) returns (ok: bool)
      requires Valid() && At(p, AttemptSend(job, row)) && job.delivery < |deliveries|
      modifies this`deliveries, this`jobs, this`procs, this`ran
      ensures Valid() && old(ran) <= ran && |deliveries| == |old(deliveries)| && ok == (fault == NoFault)
      ensures if ok then At(p, AttemptWrite(job, row, result)) else At(p, Done) && Kept(job)
      ensures var d := job.delivery;
        deliveries == if ok then old(deliveries)[d := old(deliveries)[d].(sends := old(deliveries)[d].sends + 1)] else old(deliveries)
    {
      var d, turn := job.delivery, Go(p, result, fault);
      ok := fault == NoFault;
      if !ok {
        Throw(p, job, turn);
        return;
      }
      deliveries := deliveries[d := deliveries[d].(sends := deliveries[d].sends + 1)];
      Continue(p, AttemptWrite(job, row, result), turn);
    }

    /** The update after the request: delivered, failed for good, or pending with one attempt more. */
    method UpdateRow(d: nat, attemptCount: nat, result: SendResult) returns (outcome: Outcome)
      requires d < |deliveries| && attemptCount > 0
      modifies this`deliveries
      ensures deliveries ==
        old(deliveries)[d := AfterAttempt(old(deliveries)[d], old(deliveries)[d].(attemptCount := attemptCount - 1), result)]
      ensures Fits(outcome, result, attemptCount)
      ensures Written(old(deliveries)[d], deliveries[d], outcome, attemptCount)
    {
      if IsOk(result) {
        deliveries := deliveries[d := deliveries[d].(status := Delivered, attemptCount := attemptCount)];
        return DidDeliver;
      }
      var retryable := result.NetworkError? || IsRetryableStatus(result.code);
      var delay := if retryable then RetryDelayMs(attemptCount) else None;
      if delay.None? {
        deliveries := deliveries[d := deliveries[d].(status := Failed, attemptCount := attemptCount)];
        outcome := DidFail;
      } else {
        deliveries := deliveries[d := deliveries[d].(attemptCount := attemptCount, waited := deliveries[d].waited + delay.value)];
        outcome := RetryScheduled;
      }
    }

    method WriteAttempt(p: nat, job: JobId, row: Delivery, result: SendResult, fault: Fault) returns (r: Result<Outcome, Failure>)
      requires Valid() && At(p, AttemptWrite(job, row, result)) && job.delivery < |deliveries|
      modifies this`deliveries, this`jobs, this`procs, this`ran
      ensures Valid() && old(ran) <= ran && |deliveries| == |old(deliveries)| && (r.Err? <==> fault != NoFault)
      ensures r.Err? ==> At(p, Done) && Kept(job)
      ensures r.Ok? ==>
        && At(p, if r.value == RetryScheduled then AttemptEnqueue(job, row.attemptCount + 1) else AttemptEnd(job))
        && Fits(r.value, result, row.attemptCount + 1)
        && Rewritten(old(deliveries), deliveries, job.delivery, r.value, row.attemptCount + 1)
    {
      var turn := Go(p, NetworkError, fault);
      if fault == Before {
        Throw(p, job, turn);
        return Err(OperationFailed);
      }
      var outcome := UpdateRow(job.delivery, row.attemptCount + 1, result);
      if fault == After {
        Throw(p, job, turn);
        return Err(OperationFailed);
      }
      Continue(p, if outcome == RetryScheduled then AttemptEnqueue(job, row.attemptCount + 1) else AttemptEnd(job), turn);
      r := Ok(outcome);
    }

    method EnqueueRetry(p: nat, job: JobId, attemptCount: nat, fault: Fault) returns (ok: bool)
      requires Valid() && At(p, AttemptEnqueue(job, attemptCount))
      modifies this`jobs, this`procs, this`ran
      ensures Valid() && old(ran) <= ran && deliveries == old(deliveries) && ok == (fault == NoFault)
      ensures if ok then At(p, AttemptEnd(job)) && JobId(job.delivery, Retry(attemptCount)) in jobs else At(p, Done) && Kept(job)
    {
      var retry, turn := JobId(job.delivery, Retry(attemptCount)), Go(p, NetworkError, fault);
      ok := fault == NoFault;
      if fault != Before && retry !in jobs {
        jobs := jobs[retry := Queued];
      }
      if ok { Continue(p, AttemptEnd(job), turn); } else { Throw(p, job, turn); }
    }

    /**
     * `attemptDelivery`: skipped exactly when the row is not pending when read; delivered, failed and retry_scheduled
     * have their reasons, `gone` being what the store showed at a moment during the call, and the row or the queue shows them
     * when it returns. It throws only if an operation failed, and then the queue keeps the job as failed.
     */
    method AttemptDelivery(p: nat, job: JobId, result: SendResult, gap: Pauses)
      returns (r: Result<Outcome, Failure>, ghost count: nat, ghost gone: bool)
      requires Valid() && At(p, AttemptRead(job)) && gap.Others(p)
      modifies this
      ensures Valid() && old(ran) <= ran && At(p, if r.Ok? then AttemptEnd(job) else Done)
      ensures r.Ok? ==>
        (r.value == DidSkip <==> !(job.delivery < old(|deliveries|) && old(deliveries)[job.delivery].status == Pending))
      ensures r.Ok? && r.value != DidSkip ==> Justified(r.value, result, gone, count) && count <= 7
      ensures r.Ok? && r.value != DidSkip ==> SeenAs(events, ran, |old(ran)|, old(deliveries)[job.delivery], gone)
      ensures gap.Quiet() ==> r.Ok?
      ensures gap.Quiet() && r.value != DidSkip ==>
        && LeftAs(old(deliveries), deliveries, job.delivery, r.value, gone)
        && gone == Absent(old(endpoints), events, old(deliveries)[job.delivery])
      ensures r == Ok(DidSkip) ==> deliveries == old(deliveries) && jobs == old(jobs)
      ensures r.Ok? && r.value != DidSkip ==>
        job.delivery < |deliveries| && count == old(deliveries)[job.delivery].attemptCount + 1
      ensures r == Ok(DidDeliver) ==> deliveries[job.delivery].status == Delivered
      ensures r == Ok(DidFail) ==> deliveries[job.delivery].status == Failed
      ensures r == Ok(RetryScheduled) ==> JobId(job.delivery, Retry(count)) in jobs
      ensures r.Err? ==> Kept(job) && !gap.Fine()
    {
      count, gone := 0, false;
      var row := ReadForAttempt(p, job, gap.read);
      if row.Err? { return Err(row.error), 0, false; }
      if row.value.None? { return Ok(DidSkip), 0, false; }
      count := row.value.value.attemptCount + 1;
      r, gone := AttemptRow(p, job, row.value.value, result, gap, |old(ran)|);
    }

    method FindTargets(p: nat, job: JobId, row: Delivery, gap: Pause, ghost from: nat) returns (r: Result<bool, Failure>)
      requires Valid() && At(p, AttemptLoad(job, row)) && Elsewhere(gap.others, p) && from <= |ran|
      modifies this
      ensures Valid() && old(ran) <= ran && (r.Err? <==> gap.fault != NoFault) && |old(deliveries)| <= |deliveries|
      ensures gap.others == [] && r.Ok? ==> deliveries == old(deliveries) && r.value == Absent(old(endpoints), events, row)
      ensures r.Err? ==> At(p, Done) && Kept(job)
      ensures r.Ok? ==> SeenAs(events, ran, from, row, r.value)
      ensures r.Ok? ==> At(p, if r.value then AttemptFail(job, row) else AttemptSend(job, row))
    {
      Interfere(p, gap.others);
      ghost var reading := |ran|;
      r := LoadTargets(p, job, row, gap.fault);
      if r.Ok? { SeenLater(events, ran, ran, reading, from, row, r.value); }
    }

    /** `attemptDelivery` for a row that was pending when read. */
    method AttemptRow(p: nat, job: JobId, row: Delivery, result: SendResult, gap: Pauses, ghost from: nat)
      returns (r: Result<Outcome, Failure>, ghost gone: bool)
      requires Valid() && At(p, AttemptLoad(job, row)) && gap.Others(p) && job.delivery < |deliveries| && row.attemptCount <= 6
      requires from <= |ran|
      modifies this
      ensures Valid() && old(ran) <= ran && At(p, if r.Ok? then AttemptEnd(job) else Done) && job.delivery < |deliveries|
      ensures r.Ok? ==> Justified(r.value, result, gone, row.attemptCount + 1) && r.value != DidSkip
      ensures r.Ok? ==> SeenAs(events, ran, from, row, gone)
      ensures gap.Quiet() ==> r.Ok? && gone == Absent(old(endpoints), events, row) && (old(deliveries)[job.delivery] == row ==>
        LeftAs(old(deliveries), deliveries, job.delivery, r.value, gone))
      ensures r == Ok(DidDeliver) ==> deliveries[job.delivery].status == Delivered
      ensures r == Ok(DidFail) ==> deliveries[job.delivery].status == Failed
      ensures r == Ok(RetryScheduled) ==> JobId(job.delivery, Retry(row.attemptCount + 1)) in jobs
      ensures r.Err? ==> Kept(job) && !gap.Fine()
    {
      var loaded := FindTargets(p, job, row, gap.load, from);
      if loaded.Err? { return Err(loaded.error), false; }
      gone := loaded.value;
      ghost var was := ran;
      if loaded.value {
        r := FailGone(p, job, row, gap.fail);
      } else {
        r := SendAndWrite(p, job, row, result, gap);
      }
      SeenLater(events, was, ran, from, from, row, gone);
    }

    method FailGone(p: nat, job: JobId, row: Delivery, gap: Pause) returns (r: Result<Outcome, Failure>)
      requires Valid() && At(p, AttemptFail(job, row)) && Elsewhere(gap.others, p) && job.delivery < |deliveries|
      modifies this
      ensures Valid() && old(ran) <= ran && job.delivery < |deliveries|
      ensures if r.Ok? then r == Ok(DidFail) && At(p, AttemptEnd(job)) && deliveries[job.delivery].status == Failed
              else At(p, Done) && Kept(job) && gap.fault != NoFault
      ensures gap.others == [] && r.Ok? && old(deliveries)[job.delivery] == row ==>
        LeftAs(old(deliveries), deliveries, job.delivery, DidFail, true)
    {
      Interfere(p, gap.others);
      var ok := MarkFailed(p, job, row, gap.fault);
      r := if ok then Ok(DidFail) else Err(OperationFailed);
    }

    method SendAndWrite(p: nat, job: JobId, row: Delivery, result: SendResult, gap: Pauses) returns (r: Result<Outcome, Failure>)
      requires Valid() && At(p, AttemptSend(job, row)) && gap.Others(p) && job.delivery < |deliveries|
      modifies this
      ensures Valid() && old(ran) <= ran && At(p, if r.Ok? then AttemptEnd(job) else Done) && job.delivery < |deliveries|
      ensures r.Ok? ==> Fits(r.value, result, row.attemptCount + 1)
      ensures gap.Quiet() ==> r.Ok? && (old(deliveries)[job.delivery] == row ==>
        LeftAs(old(deliveries), deliveries, job.delivery, r.value, false))
      ensures r == Ok(DidDeliver) ==> deliveries[job.delivery].status == Delivered
      ensures r == Ok(DidFail) ==> deliveries[job.delivery].status == Failed
      ensures r == Ok(RetryScheduled) ==> JobId(job.delivery, Retry(row.attemptCount + 1)) in jobs
      ensures r.Err? ==> Kept(job) && !gap.Fine()
    {
      Interfere(p, gap.send.others);
      var sent := Send(p, job, row, result, gap.send.fault);
      if !sent { return Err(OperationFailed); }
      ghost var after := deliveries;
      r := WriteAndEnqueue(p, job, row, result, gap);
      if gap.Quiet() && old(deliveries)[job.delivery] == row {
        SentAndWritten(old(deliveries), after, deliveries, job.delivery, r.value);
      }
    }

    method QueueRetry(p: nat, job: JobId, attemptCount: nat, gap: Pause) returns (ok: bool)
      requires Valid() && At(p, AttemptEnqueue(job, attemptCount)) && Elsewhere(gap.others, p)
      modifies this
      ensures Valid() && old(ran) <= ran && ok == (gap.fault == NoFault) && |old(deliveries)| <= |deliveries|
      ensures gap.others == [] ==> deliveries == old(deliveries)
      ensures if ok then At(p, AttemptEnd(job)) && JobId(job.delivery, Retry(attemptCount)) in jobs else At(p, Done) && Kept(job)
    {
      Interfere(p, gap.others);
      ok := EnqueueRetry(p, job, attemptCount, gap.fault);
    }

    method WriteAndEnqueue(p: nat, job: JobId, row: Delivery, result: SendResult, gap: Pauses)
      returns (r: Result<Outcome, Failure>)
      requires Valid() && At(p, AttemptWrite(job, row, result)) && gap.Others(p) && job.delivery < |deliveries|
      modifies this
      ensures Valid() && old(ran) <= ran && At(p, if r.Ok? then AttemptEnd(job) else Done) && job.delivery < |deliveries|
      ensures r.Ok? ==> Fits(r.value, result, row.attemptCount + 1)
      ensures gap.Quiet() ==> r.Ok? && Rewritten(old(deliveries), deliveries, job.delivery, r.value, row.attemptCount + 1)
      ensures r == Ok(DidDeliver) ==> deliveries[job.delivery].status == Delivered
      ensures r == Ok(DidFail) ==> deliveries[job.delivery].status == Failed
      ensures r == Ok(RetryScheduled) ==> JobId(job.delivery, Retry(row.attemptCount + 1)) in jobs
      ensures r.Err? ==> Kept(job) && !gap.Fine()
    {
      Interfere(p, gap.write.others);
      r := WriteAttempt(p, job, row, result, gap.write.fault);
      if r == Ok(RetryScheduled) {
        var queued := QueueRetry(p, job, row.attemptCount + 1, gap.enqueue);
        if !queued { r := Err(OperationFailed); }
      }
    }

    // ---------- manual retry ----------

    method FindForRetry(p: nat, d: nat, stamp: nat, fault: Fault) returns (found: Option<Failure>)
      requires Valid() && At(p, ManualRead(d, stamp))
      modifies this`procs, this`ran
      ensures Valid() && old(ran) <= ran && At(p, if found.None? then ManualReset(d, stamp) else Done)
      ensures found ==
        if fault != NoFault then Some(OperationFailed)
        else if d >= |deliveries| then Some(NotFound)
        else if deliveries[d].status == Delivered then Some(AlreadyDelivered) else None
    {
      if fault != NoFault { found := Some(OperationFailed); }
      else if d >= |deliveries| { found := Some(NotFound); }
      else if deliveries[d].status == Delivered { found := Some(AlreadyDelivered); }
      else { found := None; }
      Continue(p, if found.None? then ManualReset(d, stamp) else Done, Go(p, NetworkError, fault));
    }

    /** The update that restarts the schedule; it answers the row it wrote. */
    method ResetByHand(p: nat, d: nat, stamp: nat, fault: Fault) returns (r: Result<Delivery, Failure>)
      requires Valid() && At(p, ManualReset(d, stamp)) && d < |deliveries|
      modifies this`deliveries, this`procs, this`ran
      ensures Valid() && old(ran) <= ran && At(p, if r.Ok? then ManualEnqueue(d, stamp) else Done) && (r.Err? <==> fault != NoFault)
      ensures r.Ok? ==> d < |deliveries| && deliveries[d] == r.value && r.value.status == Pending && r.value.attemptCount == 0
    {
      if fault == Before {
        Continue(p, Done, Go(p, NetworkError, fault));
        return Err(OperationFailed);
      }
      deliveries := deliveries[d := deliveries[d].(status := Pending, attemptCount := 0, sends := 0, waited := 0)];
      r := if fault == After then Err(OperationFailed) else Ok(deliveries[d]);
      Continue(p, if fault == After then Done else ManualEnqueue(d, stamp), Go(p, NetworkError, fault));
    }

    method EnqueueByHand(p: nat, d: nat, stamp: nat, fault: Fault) returns (ok: bool)
      requires Valid() && At(p, ManualEnqueue(d, stamp))
      modifies this`jobs, this`procs, this`ran
      ensures Valid() && old(ran) <= ran && At(p, Done) && ok == (fault == NoFault) && (ok ==> JobId(d, Manual(stamp)) in jobs)
    {
      if fault != Before && JobId(d, Manual(stamp)) !in jobs {
        jobs := jobs[JobId(d, Manual(stamp)) := Queued];
      }
      ok := fault == NoFault;
      Continue(p, Done, Go(p, NetworkError, fault));
    }

    /**
     * `retryDelivery`: refused exactly for a missing or delivered row. Otherwise the row was reset to pending with no
     * attempt counted, which is what it answers, and a manual job is in the queue; it throws only if an operation failed.
     */
    method RetryDelivery(p: nat, d: nat, stamp: nat, read: Fault, reset: Pause, enqueue: Pause)
      returns (r: Result<Delivery, Failure>)
      requires Valid() && At(p, ManualRead(d, stamp)) && Elsewhere(reset.others, p) && Elsewhere(enqueue.others, p)
      modifies this
      ensures Valid() && old(ran) <= ran && At(p, Done)
      ensures read == NoFault ==> (r == Err(NotFound) <==> d >= old(|deliveries|))
      ensures read == NoFault ==>
        (r == Err(AlreadyDelivered) <==> d < old(|deliveries|) && old(deliveries)[d].status == Delivered)
      ensures r.Ok? ==>
        r.value.status == Pending && r.value.attemptCount == 0 && Held(events, ran, d, r.value) && JobId(d, Manual(stamp)) in jobs
      ensures r == Err(OperationFailed) ==> read != NoFault || reset.fault != NoFault || enqueue.fault != NoFault
    {
      var refused := FindForRetry(p, d, stamp, read);
      if refused.Some? { return Err(refused.value); }
      Interfere(p, reset.others);
      r := ResetAndEnqueue(p, d, stamp, reset.fault, enqueue);
    }

    method ResetAndEnqueue(p: nat, d: nat, stamp: nat, fault: Fault, enqueue: Pause) returns (r: Result<Delivery, Failure>)
      requires Valid() && At(p, ManualReset(d, stamp)) && d < |deliveries| && Elsewhere(enqueue.others, p)
      modifies this
      ensures Valid() && old(ran) <= ran && At(p, Done)
      ensures r.Err? ==> r == Err(OperationFailed) && (fault != NoFault || enqueue.fault != NoFault)
      ensures r.Ok? ==>
        r.value.status == Pending && r.value.attemptCount == 0 && Held(events, ran, d, r.value) && JobId(d, Manual(stamp)) in jobs
    {
      r := ResetByHand(p, d, stamp, fault);
      if r.Err? { return Err(OperationFailed); }
      ghost var was := ran;
      assert ran[..|ran|] == ran && ShownAt(events, ran, |ran|, d, r.value);
      Interfere(p, enqueue.others);
      var ok := EnqueueByHand(p, d, stamp, enqueue.fault);
      HeldLater(events, was, ran, d, r.value);
      if !ok { r := Err(OperationFailed); }
    }
  }
}
