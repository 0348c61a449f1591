/** The retry schedule (src/modules/webhooks/webhooks.constants.ts). */
module WebhookConstants {
  import opened Wrappers

  const MAX_DELIVERY_ATTEMPTS: nat := 7

  const RETRY_DELAYS_MS: seq<nat> := [30_000, 120_000, 600_000, 3_600_000, 21_600_000, 86_400_000]

  predicate IsRetryableStatus(status: int) {
    status >= 500 || status in {408, 409, 425, 429}
  }

  /** `retryDelayMs`: `None` once the schedule is exhausted. */
  function RetryDelayMs(completedAttempts: int): Option<nat> {
    if completedAttempts < 1 then Some(0)
    else if completedAttempts >= MAX_DELIVERY_ATTEMPTS then None
    else if completedAttempts - 1 < |RETRY_DELAYS_MS| then Some(RETRY_DELAYS_MS[completedAttempts - 1])
    else None
  }

  /** The delays scheduled after the first `attempts` failed attempts, together. */
  function TotalDelay(attempts: nat): nat {
    if attempts == 0 then 0
    else TotalDelay(attempts - 1) + (match RetryDelayMs(attempts) case Some(d) => d case None => 0)
  }

  /** Exactly the first six failures are retried, after longer and longer delays that total 112 350 000 ms. */
  lemma ScheduleIsBounded(attempts: nat)
    ensures RetryDelayMs(attempts).Some? <==> attempts < MAX_DELIVERY_ATTEMPTS
    ensures 1 <= attempts < 6 ==> RetryDelayMs(attempts).value < RetryDelayMs(attempts + 1).value
    ensures TotalDelay(attempts) <= TotalDelay(6) == 112_350_000
  {
    assert TotalDelay(1) == 30_000 && TotalDelay(2) == 150_000 && TotalDelay(3) == 750_000;
    assert TotalDelay(4) == 4_350_000 && TotalDelay(5) == 25_950_000 && TotalDelay(6) == 112_350_000;
    if attempts > 6 {
      ScheduleIsBounded(attempts - 1);
    } else if attempts > 0 {
      assert attempts in {1, 2, 3, 4, 5, 6};
    }
  }
}

/**
 * Webhook fan-out, delivery attempts and manual retries as interleaved processes over the
 * delivery rows and the job queue (src/modules/webhooks/webhook-delivery.service.ts).
 *
 * Rows are written by id, with values computed from a row read earlier. The queue keeps one
 * job per job id until it completes; adding an id it still holds does nothing.
 */
module WebhookMachine {
  import opened Wrappers
  import opened WebhookConstants

  datatype DeliveryStatus = Pending | Delivered | Failed

  /**
   * `sends` counts the HTTP requests made since the row was created or last reset by hand, and
   * `waited` the retry delay scheduled since then; the code keeps neither.
   */
  datatype Delivery = Delivery(endpointId: nat, eventId: nat, status: DeliveryStatus, attemptCount: nat, sends: nat, waited: nat)

  datatype Endpoint = Endpoint(businessId: string, environment: string, active: bool, kinds: set<string>)

  datatype Event = Event(businessId: string, environment: string, kind: string)

  /** A job id is the delivery's public id, alone or with the suffix `r<n>` or `manual_<stamp>`. */
  datatype Tag = First | Retry(n: nat) | Manual(stamp: nat)

  datatype JobId = JobId(delivery: nat, tag: Tag)

  /** A failed job is kept, so its id stays taken, until the queue drops it; a completed one is removed. */
  datatype JobState = Queued | Active | Broken

  datatype SendResult = Status(code: nat) | NetworkError

  datatype Pc =
    // enqueueDeliveries
    | FanRead(event: nat, order: seq<nat>)
    | FanCreate(event: nat, rest: seq<nat>, created: nat)
    | FanEnqueue(delivery: nat, event: nat, rest: seq<nat>, created: nat)
    | FanDone(event: nat, created: nat)
    // attemptDelivery
    | AttemptRead(job: JobId)
    | AttemptLoad(job: JobId, row: Delivery)
    | AttemptFail(job: JobId, row: Delivery)
    | AttemptSend(job: JobId, row: Delivery)
    | AttemptWrite(job: JobId, row: Delivery, result: SendResult)
    | AttemptEnqueue(job: JobId, attemptCount: nat)
    | AttemptEnd(job: JobId)
    // retryDelivery
    | ManualRead(delivery: nat, stamp: nat)
    | ManualReset(delivery: nat, stamp: nat)
    | ManualEnqueue(delivery: nat, stamp: nat)
    | Done

  /** `selected` notes the (endpoint, event) pairs some fan-out read as active and subscribed. */
  datatype World = World(
    deliveries: seq<Delivery>, jobs: map<JobId, JobState>, endpoints: map<nat, Endpoint>, procs: seq<Pc>, selected: set<(nat, nat)>)

  /** What a step of an attempt meets; `gone`: the endpoint is inactive or missing, or the event is missing. */
  datatype Choice = Choice(send: SendResult, gone: bool, fault: Fault)

  datatype Turn =
    | FanOut(event: nat, order: seq<nat>)
    | Pick(job: JobId)
    | Rerun(job: JobId)
    | ManualRetry(delivery: nat, stamp: nat)
    | SetEndpoint(id: nat, endpoint: Endpoint)
    | Drop(job: JobId)
    | Go(proc: nat, send: SendResult, fault: Fault)

  const INIT := World([], map[], map[], [], {})

  function Goto(w: World, p: nat, pc: Pc): World
    requires p < |w.procs|
  {
    w.(procs := w.procs[p := pc])
  }

  // ---------- fan-out ----------

  predicate Subscribed(w: World, endpoint: nat, event: Event) {
    && endpoint in w.endpoints && w.endpoints[endpoint].active
    && w.endpoints[endpoint].businessId == event.businessId && w.endpoints[endpoint].environment == event.environment
    && event.kind in w.endpoints[endpoint].kinds
  }

  /** The endpoints the query finds; `order` is the order in which the store lists them. */
  function Found(w: World, event: Event, order: seq<nat>): (found: seq<nat>)
    ensures forall id :: id in found <==> id in order && Subscribed(w, id, event)
  {
    if order == [] then []
    else if Subscribed(w, order[0], event) then [order[0]] + Found(w, event, order[1..])
    else Found(w, event, order[1..])
  }

  /** The unique index on (endpointId, eventId). */
  predicate PairTaken(w: World, endpoint: nat, event: nat) {
    exists d | 0 <= d < |w.deliveries| :: w.deliveries[d].endpointId == endpoint && w.deliveries[d].eventId == event
  }

  /** `queue.add`: ignored when the queue still holds the id. */
  function Add(jobs: map<JobId, JobState>, job: JobId): map<JobId, JobState> {
    if job in jobs then jobs else jobs[job := Queued]
  }

  function Fan(events: map<nat, Event>, w: World, p: nat, fault: Fault): World
    requires p < |w.procs|
  {
    match w.procs[p]
    case FanRead(event, order) =>
      if fault != NoFault then Goto(w, p, Done)
      else if event !in events then Goto(w, p, FanDone(event, 0))
      else
        var found := Found(w, events[event], order);
        Goto(w.(selected := w.selected + set id | id in found :: (id, event)), p, FanCreate(event, found, 0))
    case FanCreate(event, rest, created) =>
      if rest == [] then Goto(w, p, FanDone(event, created))
      else if fault == Before then Goto(w, p, Done)
      else if PairTaken(w, rest[0], event) then Goto(w, p, FanCreate(event, rest[1..], created))
      else
        var row := Delivery(rest[0], event, Pending, 0, 0, 0);
        Goto(w.(deliveries := w.deliveries + [row]), p,
             if fault == After then Done else FanEnqueue(|w.deliveries|, event, rest[1..], created + 1))
    case FanEnqueue(d, event, rest, created) =>
      var jobs := if fault == Before then w.jobs else Add(w.jobs, JobId(d, First));
      Goto(w.(jobs := jobs), p, if fault == NoFault then FanCreate(event, rest, created) else Done)
    case _ => w
  }

  // ---------- an attempt ----------

  /** The job throws: the queue keeps it as failed, unless another worker has finished it. */
  function Break(w: World, p: nat, job: JobId): World
    requires p < |w.procs|
  {
    Goto(w.(jobs := if job in w.jobs then w.jobs[job := Broken] else w.jobs), p, Done)
  }

  predicate IsOk(result: SendResult) {
    result.Status? && 200 <= result.code < 300
  }

  /** The delay before the next attempt, if there is to be one. */
  function NextDelay(result: SendResult, attemptCount: nat): Option<nat> {
    if result.NetworkError? || IsRetryableStatus(result.code) then RetryDelayMs(attemptCount) else None
  }

  /** The row after an attempt that started from `row`: written by id over whatever is there. */
  function AfterAttempt(now: Delivery, row: Delivery, result: SendResult): Delivery {
    var count := row.attemptCount + 1;
    if IsOk(result) then now.(status := Delivered, attemptCount := count)
    else
      match NextDelay(result, count)
      case None => now.(status := Failed, attemptCount := count)
      case Some(delay) => now.(attemptCount := count, waited := now.waited + delay)
  }

  function AfterWrite(job: JobId, row: Delivery, result: SendResult): Pc {
    if !IsOk(result) && NextDelay(result, row.attemptCount + 1).Some? then AttemptEnqueue(job, row.attemptCount + 1)
    else AttemptEnd(job)
  }

  function SetRow(w: World, d: nat, row: Delivery): World
    requires d < |w.deliveries|
  {
    w.(deliveries := w.deliveries[d := row])
  }

  function Attempt(w: World, p: nat, choice: Choice): World
    requires p < |w.procs|
  {
    match w.procs[p]
    case AttemptRead(job) =>
      if choice.fault != NoFault then Break(w, p, job)
      else if job.delivery >= |w.deliveries| || w.deliveries[job.delivery].status != Pending then Goto(w, p, AttemptEnd(job))
      else Goto(w, p, AttemptLoad(job, w.deliveries[job.delivery]))
    case AttemptLoad(job, row) =>
      // the endpoint, then the event: events never change, so the two reads are as good as one
      if choice.fault != NoFault then Break(w, p, job)
      else Goto(w, p, if choice.gone then AttemptFail(job, row) else AttemptSend(job, row))
    case AttemptFail(job, row) =>
      if job.delivery >= |w.deliveries| || choice.fault == Before then Break(w, p, job)
      else
        var now := w.deliveries[job.delivery];
        var w1 := SetRow(w, job.delivery, now.(status := Failed, attemptCount := row.attemptCount + 1));
        if choice.fault == After then Break(w1, p, job) else Goto(w1, p, AttemptEnd(job))
    case AttemptSend(job, row) =>
      // a secret that cannot be decrypted throws before anything is sent
      if job.delivery >= |w.deliveries| || choice.fault != NoFault then Break(w, p, job)
      else
        var now := w.deliveries[job.delivery];
        Goto(SetRow(w, job.delivery, now.(sends := now.sends + 1)), p, AttemptWrite(job, row, choice.send))
    case AttemptWrite(job, row, result) =>
      if job.delivery >= |w.deliveries| || choice.fault == Before then Break(w, p, job)
      else
        var w1 := SetRow(w, job.delivery, AfterAttempt(w.deliveries[job.delivery], row, result));
        if choice.fault == After then Break(w1, p, job) else Goto(w1, p, AfterWrite(job, row, result))
    case AttemptEnqueue(job, count) =>
      if choice.fault == Before then Break(w, p, job)
      else
        var w1 := w.(jobs := Add(w.jobs, JobId(job.delivery, Retry(count))));
        if choice.fault == After then Break(w1, p, job) else Goto(w1, p, AttemptEnd(job))
    case AttemptEnd(job) => Goto(w.(jobs := w.jobs - {job}), p, Done)
    case _ => w
  }

  // ---------- manual retry ----------

  function ManualStep(w: World, p: nat, fault: Fault): World
    requires p < |w.procs|
  {
    match w.procs[p]
    case ManualRead(d, stamp) =>
      if d >= |w.deliveries| || w.deliveries[d].status == Delivered || fault != NoFault then Goto(w, p, Done)
      else Goto(w, p, ManualReset(d, stamp))
    case ManualReset(d, stamp) =>
      if d >= |w.deliveries| || fault == Before then Goto(w, p, Done)
      else
        Goto(SetRow(w, d, w.deliveries[d].(status := Pending, attemptCount := 0, sends := 0, waited := 0)), p,
             if fault == After then Done else ManualEnqueue(d, stamp))
    case ManualEnqueue(d, stamp) =>
      Goto(if fault == Before then w else w.(jobs := Add(w.jobs, JobId(d, Manual(stamp)))), p, Done)
    case _ => w
  }

  // ---------- turns ----------

  predicate IsFan(pc: Pc) {
    pc.FanRead? || pc.FanCreate? || pc.FanEnqueue?
  }

  predicate IsManual(pc: Pc) {
    pc.ManualRead? || pc.ManualReset? || pc.ManualEnqueue?
  }

  predicate Missing(events: map<nat, Event>, w: World, row: Delivery) {
    row.endpointId !in w.endpoints || !w.endpoints[row.endpointId].active || row.eventId !in events
  }

  predicate Gone(events: map<nat, Event>, w: World, pc: Pc) {
    pc.AttemptLoad? && Missing(events, w, pc.row)
  }

  /** The schedule chooses the answer and the failures; whether endpoint and event are there is read from the store. */
  function Met(events: map<nat, Event>, w: World, p: nat, send: SendResult, fault: Fault): Choice
    requires p < |w.procs|
  {
    Choice(send, Gone(events, w, w.procs[p]), fault)
  }

  function Move(events: map<nat, Event>, w: World, p: nat, choice: Choice): World
    requires p < |w.procs|
  {
    if IsFan(w.procs[p]) then Fan(events, w, p, choice.fault)
    else if IsManual(w.procs[p]) then ManualStep(w, p, choice.fault)
    else Attempt(w, p, choice)
  }

  function Spawn(w: World, pc: Pc): World {
    w.(procs := w.procs + [pc])
  }

  /**
   * `Rerun` is a second worker taking up a job that is still marked active. `Drop` is the queue forgetting a failed job,
   * as it does with all but the latest.
   */
  function Step(events: map<nat, Event>, w: World, t: Turn): World {
    match t
    case FanOut(event, order) => Spawn(w, FanRead(event, order))
    case Pick(job) =>
      if job in w.jobs && w.jobs[job] == Queued then Spawn(w.(jobs := w.jobs[job := Active]), AttemptRead(job)) else w
    case Rerun(job) => if job in w.jobs && w.jobs[job] == Active then Spawn(w, AttemptRead(job)) else w
    case ManualRetry(d, stamp) => Spawn(w, ManualRead(d, stamp))
    case SetEndpoint(id, endpoint) => w.(endpoints := w.endpoints[id := endpoint])
    case Drop(job) => if job in w.jobs && w.jobs[job] == Broken then w.(jobs := w.jobs - {job}) else w
    case Go(p, send, fault) => if p < |w.procs| then Move(events, w, p, Met(events, w, p, send, fault)) else w
  }

  function Run(events: map<nat, Event>, w: World, schedule: seq<Turn>): World
    decreases |schedule|
  {
    if schedule == [] then w else Run(events, Step(events, w, schedule[0]), schedule[1..])
  }
}
