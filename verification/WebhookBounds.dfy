/** What holds of deliveries in every interleaving: attempt counts, fan-out uniqueness, and the number of requests sent. */
module WebhookBounds {
  import opened Wrappers
  import opened WebhookConstants
  import opened WebhookMachine

  // ---------- runs ----------

  lemma {:induction false} RunAppend(events: map<nat, Event>, w: World, s: seq<Turn>, t: seq<Turn>)
    ensures Run(events, w, s + t) == Run(events, Run(events, w, s), t)
    decreases |s|
  {
    if s == [] {
      assert s + t == t;
    } else {
      assert (s + t)[1..] == s[1..] + t;
      RunAppend(events, Step(events, w, s[0]), s[1..], t);
    }
  }

  lemma RunOneMore(events: map<nat, Event>, s: seq<Turn>, t: Turn)
    ensures Run(events, INIT, s + [t]) == Step(events, Run(events, INIT, s), t)
  {
    RunAppend(events, INIT, s, [t]);
    assert Run(events, Run(events, INIT, s), [t]) == Run(events, Step(events, Run(events, INIT, s), t), []);
  }

  // ---------- attempt counts and fan-out, with overlapping attempts, faults and manual retries ----------

  /** A failed delivery may have used all seven attempts; a pending one has used six at most. */
  predicate CountOk(d: Delivery) {
    d.attemptCount <= 7 && (d.status == Pending ==> d.attemptCount <= 6)
  }

  /** An attempt that has read its row and not yet written to it. */
  predicate Reading(pc: Pc) {
    pc.AttemptLoad? || pc.AttemptFail? || pc.AttemptSend? || pc.AttemptWrite?
  }

  /** Rows held by a running attempt were pending when read. */
  predicate HeldOk(pc: Pc) {
    && (Reading(pc) ==> pc.row.attemptCount <= 6)
    && (pc.AttemptEnqueue? ==> pc.attemptCount <= 6)
  }

  ghost predicate CountsOk(w: World) {
    (forall d | 0 <= d < |w.deliveries| :: CountOk(w.deliveries[d])) && (forall p | 0 <= p < |w.procs| :: HeldOk(w.procs[p]))
  }

  function Pair(d: Delivery): (nat, nat) {
    (d.endpointId, d.eventId)
  }

  /** Pairs still to be created were selected. */
  predicate RestOk(w: World, pc: Pc) {
    (pc.FanCreate? || pc.FanEnqueue?) ==> forall e | e in pc.rest :: (e, pc.event) in w.selected
  }

  ghost predicate PairsOk(w: World) {
    && (forall i, j | 0 <= i < j < |w.deliveries| :: Pair(w.deliveries[i]) != Pair(w.deliveries[j]))
    && (forall d | 0 <= d < |w.deliveries| :: Pair(w.deliveries[d]) in w.selected)
    && (forall p | 0 <= p < |w.procs| :: RestOk(w, w.procs[p]))
  }

  lemma AttemptCounts(w: World, p: nat, choice: Choice)
    requires CountsOk(w) && p < |w.procs| && !IsFan(w.procs[p]) && !IsManual(w.procs[p])
    ensures CountsOk(Attempt(w, p, choice))
  {
    assert HeldOk(w.procs[p]);
    if w.procs[p].AttemptWrite? {
      WriteCounts(w, p, choice);
    }
  }

  lemma WriteCounts(w: World, p: nat, choice: Choice)
    requires CountsOk(w) && p < |w.procs| && w.procs[p].AttemptWrite? && HeldOk(w.procs[p])
    ensures CountsOk(Attempt(w, p, choice))
  {
    ScheduleIsBounded(w.procs[p].row.attemptCount + 1);
  }

  lemma CountsKept(events: map<nat, Event>, w: World, t: Turn)
    requires CountsOk(w)
    ensures CountsOk(Step(events, w, t))
  {
    if t.Go? && t.proc < |w.procs| {
      if IsFan(w.procs[t.proc]) {
        FanCountsOk(events, w, t.proc, t.fault);
      } else if IsManual(w.procs[t.proc]) {
        ManualCounts(w, t.proc, t.fault);
      } else {
        AttemptCounts(w, t.proc, Met(events, w, t.proc, t.send, t.fault));
      }
    }
  }

  lemma ManualCounts(w: World, p: nat, fault: Fault)
    requires CountsOk(w) && p < |w.procs| && IsManual(w.procs[p])
    ensures CountsOk(ManualStep(w, p, fault))
  {
  }

  lemma FanCountsOk(events: map<nat, Event>, w: World, p: nat, fault: Fault)
    requires CountsOk(w) && p < |w.procs| && IsFan(w.procs[p])
    ensures CountsOk(Fan(events, w, p, fault))
  {
  }

  lemma {:induction false} CountsOfRun(events: map<nat, Event>, w: World, schedule: seq<Turn>)
    requires CountsOk(w)
    ensures CountsOk(Run(events, w, schedule))
    decreases |schedule|
  {
    if schedule != [] {
      CountsKept(events, w, schedule[0]);
      CountsOfRun(events, Step(events, w, schedule[0]), schedule[1..]);
    }
  }

  /** In every interleaving, overlapping attempts and manual retries included, no delivery exceeds seven attempts. */
  lemma AttemptBound(events: map<nat, Event>, schedule: seq<Turn>, d: nat)
    requires d < |Run(events, INIT, schedule).deliveries|
    ensures var row := Run(events, INIT, schedule).deliveries[d];
      row.attemptCount <= MAX_DELIVERY_ATTEMPTS && (row.status == Pending ==> row.attemptCount <= MAX_DELIVERY_ATTEMPTS - 1)
  {
    CountsOfRun(events, INIT, schedule);
    assert CountOk(Run(events, INIT, schedule).deliveries[d]);
  }

  // ---------- fan-out ----------

  lemma FanPairs(events: map<nat, Event>, w: World, p: nat, fault: Fault)
    requires PairsOk(w) && p < |w.procs| && IsFan(w.procs[p])
    ensures PairsOk(Fan(events, w, p, fault))
  {
    assert RestOk(w, w.procs[p]);
    var w' := Fan(events, w, p, fault);
    assert w.selected <= w'.selected;
    forall q | 0 <= q < |w'.procs| ensures RestOk(w', w'.procs[q]) {
      assert RestOk(w, w.procs[q]);
    }
  }

  lemma OtherPairs(w: World, p: nat, choice: Choice)
    requires PairsOk(w) && p < |w.procs| && !IsFan(w.procs[p])
    ensures PairsOk(if IsManual(w.procs[p]) then ManualStep(w, p, choice.fault) else Attempt(w, p, choice))
  {
    var w' := if IsManual(w.procs[p]) then ManualStep(w, p, choice.fault) else Attempt(w, p, choice);
    PairsUnchanged(w, p, choice);
    forall q | 0 <= q < |w'.procs| ensures RestOk(w', w'.procs[q]) {
      assert RestOk(w, w.procs[q]);
    }
  }

  lemma PairsUnchanged(w: World, p: nat, choice: Choice)
    requires p < |w.procs| && !IsFan(w.procs[p])
    ensures var w' := if IsManual(w.procs[p]) then ManualStep(w, p, choice.fault) else Attempt(w, p, choice);
      && |w'.deliveries| == |w.deliveries| && w'.selected == w.selected
      && (forall d | 0 <= d < |w.deliveries| :: Pair(w'.deliveries[d]) == Pair(w.deliveries[d]))
      && |w'.procs| == |w.procs| && (forall q | 0 <= q < |w.procs| && q != p :: w'.procs[q] == w.procs[q])
      && !IsFan(w'.procs[p])
  {
    if !IsManual(w.procs[p]) {
      AttemptPairs(w, p, choice);
    }
  }

  lemma AttemptPairs(w: World, p: nat, choice: Choice)
    requires p < |w.procs| && !IsFan(w.procs[p])
    ensures var w' := Attempt(w, p, choice);
      && |w'.deliveries| == |w.deliveries| && w'.selected == w.selected
      && (forall d | 0 <= d < |w.deliveries| :: Pair(w'.deliveries[d]) == Pair(w.deliveries[d]))
      && |w'.procs| == |w.procs| && (forall q | 0 <= q < |w.procs| && q != p :: w'.procs[q] == w.procs[q])
      && !IsFan(w'.procs[p])
  {
    AttemptProcs(w, p, choice);
    AttemptRows(w, p, choice);
  }

  lemma AttemptProcs(w: World, p: nat, choice: Choice)
    requires p < |w.procs| && !IsFan(w.procs[p])
    ensures var w' := Attempt(w, p, choice);
      && |w'.procs| == |w.procs| && (forall q | 0 <= q < |w.procs| && q != p :: w'.procs[q] == w.procs[q])
      && !IsFan(w'.procs[p])
  {
    AttemptOneProc(w, p, choice);
  }

  lemma AttemptOneProc(w: World, p: nat, choice: Choice)
    requires p < |w.procs|
    ensures var w' := Attempt(w, p, choice);
      |w'.procs| == |w.procs| && forall q | 0 <= q < |w.procs| && q != p :: w'.procs[q] == w.procs[q]
  {
  }

  lemma AttemptRows(w: World, p: nat, choice: Choice)
    requires p < |w.procs|
    ensures var w' := Attempt(w, p, choice);
      && |w'.deliveries| == |w.deliveries| && w'.selected == w.selected
      && (forall d | 0 <= d < |w.deliveries| :: Pair(w'.deliveries[d]) == Pair(w.deliveries[d]))
  {
    AttemptSizes(w, p, choice);
    forall d | 0 <= d < |w.deliveries| ensures Pair(Attempt(w, p, choice).deliveries[d]) == Pair(w.deliveries[d]) {
      AttemptPair(w, p, choice, d);
    }
  }

  lemma AttemptSizes(w: World, p: nat, choice: Choice)
    requires p < |w.procs|
    ensures |Attempt(w, p, choice).deliveries| == |w.deliveries| && Attempt(w, p, choice).selected == w.selected
  {
    AttemptSelects(w, p, choice);
  }

  lemma AttemptSelects(w: World, p: nat, choice: Choice)
    requires p < |w.procs|
    ensures Attempt(w, p, choice).selected == w.selected
  {
  }

  lemma AttemptPair(w: World, p: nat, choice: Choice, d: nat)
    requires p < |w.procs| && d < |w.deliveries|
    ensures d < |Attempt(w, p, choice).deliveries| && Pair(Attempt(w, p, choice).deliveries[d]) == Pair(w.deliveries[d])
  {
  }

  lemma PairsKept(events: map<nat, Event>, w: World, t: Turn)
    requires PairsOk(w)
    ensures PairsOk(Step(events, w, t))
  {
    if t.Go? && t.proc < |w.procs| {
      if IsFan(w.procs[t.proc]) {
        FanPairs(events, w, t.proc, t.fault);
      } else {
        OtherPairs(w, t.proc, Met(events, w, t.proc, t.send, t.fault));
      }
    } else {
      var w' := Step(events, w, t);
      forall q | 0 <= q < |w'.procs| ensures RestOk(w', w'.procs[q]) {
        if q < |w.procs| { assert RestOk(w, w.procs[q]); }
      }
    }
  }

  lemma {:induction false} PairsOfRun(events: map<nat, Event>, w: World, schedule: seq<Turn>)
    requires PairsOk(w)
    ensures PairsOk(Run(events, w, schedule))
    decreases |schedule|
  {
    if schedule != [] {
      PairsKept(events, w, schedule[0]);
      PairsOfRun(events, Step(events, w, schedule[0]), schedule[1..]);
    }
  }

  /** The endpoint is active, of the event's business and environment, and subscribed to its kind. */
  predicate Listens(endpoints: map<nat, Endpoint>, endpoint: nat, event: Event) {
    && endpoint in endpoints && endpoints[endpoint].active && event.kind in endpoints[endpoint].kinds
    && event.businessId == endpoints[endpoint].businessId && event.environment == endpoints[endpoint].environment
  }

  /** A pair is selected only while its endpoint is active, subscribed, and of the event's business and environment. */
  lemma SelectedWhenSubscribed(events: map<nat, Event>, w: World, t: Turn, endpoint: nat, event: nat)
    requires (endpoint, event) !in w.selected && (endpoint, event) in Step(events, w, t).selected
    ensures event in events && Listens(w.endpoints, endpoint, events[event])
  {
  }

  /** However many fan-outs of an event run or are replayed, an endpoint gets one delivery of it, and only if selected. */
  lemma FanOutIsUnique(events: map<nat, Event>, schedule: seq<Turn>, i: nat, j: nat)
    requires i < |Run(events, INIT, schedule).deliveries| && j < |Run(events, INIT, schedule).deliveries|
    ensures var w := Run(events, INIT, schedule);
      && (Pair(w.deliveries[i]) == Pair(w.deliveries[j]) ==> i == j)
      && Pair(w.deliveries[i]) in w.selected
  {
    PairsOfRun(events, INIT, schedule);
  }

  /** At moment `k` the endpoint is active and subscribed to the event. */
  predicate SubscribedAt(events: map<nat, Event>, schedule: seq<Turn>, k: nat, endpoint: nat, event: nat) {
    k <= |schedule| && event in events && Listens(Run(events, INIT, schedule[..k]).endpoints, endpoint, events[event])
  }

  lemma {:induction false} SelectedSometime(events: map<nat, Event>, schedule: seq<Turn>, endpoint: nat, event: nat)
    returns (k: nat)
    requires (endpoint, event) in Run(events, INIT, schedule).selected
    ensures SubscribedAt(events, schedule, k, endpoint, event)
    decreases |schedule|
  {
    var n := |schedule| - 1;
    assert schedule == schedule[..n] + [schedule[n]];
    RunOneMore(events, schedule[..n], schedule[n]);
    if (endpoint, event) in Run(events, INIT, schedule[..n]).selected {
      k := SelectedSometime(events, schedule[..n], endpoint, event);
      assert schedule[..n][..k] == schedule[..k];
    } else {
      SelectedWhenSubscribed(events, Run(events, INIT, schedule[..n]), schedule[n], endpoint, event);
      k := n;
    }
  }

  /** Every delivery goes to an endpoint that, at some moment of the run, was active and subscribed to its event. */
  lemma DeliveredToSubscribers(events: map<nat, Event>, schedule: seq<Turn>, d: nat)
    requires d < |Run(events, INIT, schedule).deliveries|
    ensures var row := Run(events, INIT, schedule).deliveries[d];
      exists k :: SubscribedAt(events, schedule, k, row.endpointId, row.eventId)
  {
    FanOutIsUnique(events, schedule, d, d);
    var row := Run(events, INIT, schedule).deliveries[d];
    var k := SelectedSometime(events, schedule, row.endpointId, row.eventId);
  }

  // ---------- the created counts ----------

  function CreatedBy(pc: Pc): nat {
    match pc
    case FanCreate(_, _, created) => created
    case FanEnqueue(_, _, _, created) => created
    case FanDone(_, created) => created
    case _ => 0
  }

  function TotalCreated(procs: seq<Pc>): nat {
    if procs == [] then 0 else TotalCreated(procs[..|procs| - 1]) + CreatedBy(procs[|procs| - 1])
  }

  lemma {:induction false} TotalUpdate(procs: seq<Pc>, p: nat, pc: Pc)
    requires p < |procs|
    ensures TotalCreated(procs[p := pc]) == TotalCreated(procs) - CreatedBy(procs[p]) + CreatedBy(pc)
  {
    var n := |procs| - 1;
    if p < n {
      TotalUpdate(procs[..n], p, pc);
      assert procs[p := pc][..n] == procs[..n][p := pc];
    } else {
      assert procs[p := pc][..n] == procs[..n];
    }
  }

  /** Nothing in this turn fails, so no fan-out loses its running count. */
  predicate NoFaults(schedule: seq<Turn>) {
    forall i | 0 <= i < |schedule| && schedule[i].Go? :: schedule[i].fault == NoFault
  }

  lemma CountKept(events: map<nat, Event>, w: World, t: Turn)
    requires TotalCreated(w.procs) == |w.deliveries| && (t.Go? ==> t.fault == NoFault)
    ensures TotalCreated(Step(events, w, t).procs) == |Step(events, w, t).deliveries|
  {
    var w' := Step(events, w, t);
    if t.Go? && t.proc < |w.procs| {
      var p := t.proc;
      if IsFan(w.procs[p]) {
        FanCounts(events, w, p);
      } else {
        PairsUnchanged(w, p, Met(events, w, t.proc, t.send, t.fault));
        NoCount(w, p, Met(events, w, t.proc, t.send, t.fault));
      }
      assert w'.procs == w.procs[p := w'.procs[p]];
      TotalUpdate(w.procs, p, w'.procs[p]);
    } else if t.SetEndpoint? || t.Go? {
      assert w'.procs == w.procs;
    } else {
      Spawned(events, w, t);
    }
  }

  /** A failure-free fan-out step adds a row exactly when it adds to its count. */
  lemma FanCounts(events: map<nat, Event>, w: World, p: nat)
    requires p < |w.procs| && IsFan(w.procs[p])
    ensures var w' := Fan(events, w, p, NoFault);
      && |w'.procs| == |w.procs| && (forall q | 0 <= q < |w.procs| && q != p :: w'.procs[q] == w.procs[q])
      && |w'.deliveries| - |w.deliveries| == CreatedBy(w'.procs[p]) - CreatedBy(w.procs[p])
  {
  }

  lemma Spawned(events: map<nat, Event>, w: World, t: Turn)
    requires !t.Go?
    ensures TotalCreated(Step(events, w, t).procs) == TotalCreated(w.procs)
    ensures Step(events, w, t).deliveries == w.deliveries
  {
    var w' := Step(events, w, t);
    if w'.procs != w.procs {
      assert w'.procs[..|w'.procs| - 1] == w.procs;
    }
  }

  lemma NoCount(w: World, p: nat, choice: Choice)
    requires p < |w.procs| && !IsFan(w.procs[p])
    ensures var w' := if IsManual(w.procs[p]) then ManualStep(w, p, choice.fault) else Attempt(w, p, choice);
      p < |w'.procs| && CreatedBy(w'.procs[p]) == CreatedBy(w.procs[p])
  {
  }

  lemma {:induction false} CountsOfFanOuts(events: map<nat, Event>, w: World, schedule: seq<Turn>)
    requires TotalCreated(w.procs) == |w.deliveries| && NoFaults(schedule)
    ensures TotalCreated(Run(events, w, schedule).procs) == |Run(events, w, schedule).deliveries|
    decreases |schedule|
  {
    if schedule != [] {
      CountKept(events, w, schedule[0]);
      CountsOfFanOuts(events, Step(events, w, schedule[0]), schedule[1..]);
    }
  }

  /** Without failures the `created` counts of all fan-outs, finished or running, sum to the rows created. */
  lemma CreatedCountsAreExact(events: map<nat, Event>, schedule: seq<Turn>)
    requires NoFaults(schedule)
    ensures TotalCreated(Run(events, INIT, schedule).procs) == |Run(events, INIT, schedule).deliveries|
  {
    CountsOfFanOuts(events, INIT, schedule);
  }

  // ---------- requests sent, when attempts of one delivery do not overlap ----------

  /** The delivery this process is attempting. */
  function Attempting(pc: Pc): Option<nat> {
    match pc
    case AttemptRead(job) => Some(job.delivery)
    case AttemptLoad(job, _) => Some(job.delivery)
    case AttemptFail(job, _) => Some(job.delivery)
    case AttemptSend(job, _) => Some(job.delivery)
    case AttemptWrite(job, _, _) => Some(job.delivery)
    case _ => None
  }

  ghost predicate Unattempted(w: World, d: nat) {
    forall p | 0 <= p < |w.procs| :: Attempting(w.procs[p]) != Some(d)
  }

  /** Attempts start only when none of the same delivery is under way, and the write after a send succeeds. */
  ghost predicate Exclusive(w: World, t: Turn) {
    match t
    case Pick(job) => Unattempted(w, job.delivery)
    case Rerun(job) => Unattempted(w, job.delivery)
    case Go(p, _, fault) => p < |w.procs| && w.procs[p].AttemptWrite? ==> fault != Before
    case _ => true
  }

  ghost predicate AllExclusive(events: map<nat, Event>, w: World, schedule: seq<Turn>)
    decreases |schedule|
  {
    schedule == [] || (Exclusive(w, schedule[0]) && AllExclusive(events, Step(events, w, schedule[0]), schedule[1..]))
  }

  /** Sends so far are covered by the attempts counted, plus the one in flight. */
  ghost predicate SendOk(w: World, p: nat)
    requires p < |w.procs|
  {
    var pc := w.procs[p];
    Reading(pc) ==>
      && pc.job.delivery < |w.deliveries|
      && w.deliveries[pc.job.delivery].sends <= pc.row.attemptCount + (if pc.AttemptWrite? then 1 else 0)
      && (!pc.AttemptWrite? ==> w.deliveries[pc.job.delivery].sends <= w.deliveries[pc.job.delivery].attemptCount)
  }

  /** The process has read this delivery's row and not yet written its attempt. */
  predicate Holding(pc: Pc, d: nat) {
    Reading(pc) && pc.job.delivery == d
  }

  ghost predicate Idle(w: World, d: nat) {
    forall p | 0 <= p < |w.procs| :: !Holding(w.procs[p], d)
  }

  ghost predicate OneAttemptEach(w: World) {
    forall p, q | 0 <= p < q < |w.procs| && Attempting(w.procs[p]).Some? :: Attempting(w.procs[p]) != Attempting(w.procs[q])
  }

  ghost predicate SendsOk(w: World) {
    && OneAttemptEach(w)
    && (forall p | 0 <= p < |w.procs| :: SendOk(w, p))
    && (forall d | 0 <= d < |w.deliveries| && Idle(w, d) :: w.deliveries[d].sends <= w.deliveries[d].attemptCount)
  }

  /** While one process attempts a delivery, no other holds a row of it. */
  lemma AttemptersAreAlone(w: World, p: nat, q: nat, d: nat)
    requires OneAttemptEach(w) && p < |w.procs| && q < |w.procs| && p != q && Attempting(w.procs[p]) == Some(d)
    ensures !Holding(w.procs[q], d)
  {
    assert Attempting(w.procs[q]) != Some(d);
  }

  /** A step that touches at most this delivery's row, by the process attempting it. */
  lemma AttemptSends(w: World, p: nat, choice: Choice)
    requires SendsOk(w) && p < |w.procs| && Attempting(w.procs[p]).Some?
    requires w.procs[p].AttemptWrite? ==> choice.fault != Before
    ensures SendsOk(Attempt(w, p, choice))
  {
    var w' := Attempt(w, p, choice);
    var d := Attempting(w.procs[p]).value;
    AttemptFrame(w, p, choice);
    forall q | 0 <= q < |w.procs| && q != p ensures SendOk(w', q) && !Holding(w.procs[q], d) {
      AttemptersAreAlone(w, p, q, d);
      assert SendOk(w, q);
    }
    assert SendOk(w, p);
    if d < |w'.deliveries| {
      IdleAfter(w, p, choice, d);
    }
    forall d' | 0 <= d' < |w'.deliveries| && d' != d && Idle(w', d') ensures Idle(w, d') {
      StillIdle(w, w', p, d, d');
    }
  }

  /** Deliveries this process is not about are idle after its step only if they were before. */
  lemma StillIdle(w: World, w': World, p: nat, d: nat, d': nat)
    requires p < |w.procs| == |w'.procs| && (forall q | 0 <= q < |w.procs| && q != p :: w'.procs[q] == w.procs[q])
    requires Attempting(w.procs[p]) == Some(d) && d' != d && Idle(w', d')
    ensures Idle(w, d')
  {
    forall q | 0 <= q < |w.procs| ensures !Holding(w.procs[q], d') {
      assert !Holding(w'.procs[q], d');
    }
  }

  lemma AttemptFrame(w: World, p: nat, choice: Choice)
    requires p < |w.procs| && Attempting(w.procs[p]).Some?
    ensures var w' := Attempt(w, p, choice); var d := Attempting(w.procs[p]).value;
      && |w'.procs| == |w.procs| && (forall q | 0 <= q < |w.procs| && q != p :: w'.procs[q] == w.procs[q])
      && |w'.deliveries| == |w.deliveries| && (forall e | 0 <= e < |w.deliveries| && e != d :: w'.deliveries[e] == w.deliveries[e])
      && Attempting(w'.procs[p]) in {None, Some(d)}
  {
    AttemptOneProc(w, p, choice);
    AttemptSizes(w, p, choice);
    AttemptOthersRows(w, p, choice);
  }

  lemma AttemptOthersRows(w: World, p: nat, choice: Choice)
    requires p < |w.procs| && Attempting(w.procs[p]).Some? && |Attempt(w, p, choice).deliveries| == |w.deliveries|
    ensures forall e | 0 <= e < |w.deliveries| && Attempting(w.procs[p]) != Some(e) ::
      Attempt(w, p, choice).deliveries[e] == w.deliveries[e]
  {
  }

  /** The attempt's own step leaves the sends covered. */
  lemma IdleAfter(w: World, p: nat, choice: Choice, d: nat)
    requires p < |w.procs| && Attempting(w.procs[p]) == Some(d) && SendOk(w, p)
    requires w.procs[p].AttemptWrite? ==> choice.fault != Before
    requires forall q | 0 <= q < |w.procs| && q != p :: !Holding(w.procs[q], d)
    requires d < |w.deliveries| && (Idle(w, d) ==> w.deliveries[d].sends <= w.deliveries[d].attemptCount)
    requires d < |Attempt(w, p, choice).deliveries|
    ensures SendOk(Attempt(w, p, choice), p)
    ensures Idle(Attempt(w, p, choice), d) ==>
      Attempt(w, p, choice).deliveries[d].sends <= Attempt(w, p, choice).deliveries[d].attemptCount
  {
    if w.procs[p].AttemptRead? {
      assert Idle(w, d);
      ReadCovered(w, p, choice, d);
    } else {
      HolderCovered(w, p, choice, d);
    }
  }

  lemma ReadCovered(w: World, p: nat, choice: Choice, d: nat)
    requires p < |w.procs| && w.procs[p].AttemptRead? && w.procs[p].job.delivery == d
    requires d < |w.deliveries| && w.deliveries[d].sends <= w.deliveries[d].attemptCount
    ensures var w' := Attempt(w, p, choice);
      p < |w'.procs| && d < |w'.deliveries| && SendOk(w', p) && w'.deliveries[d] == w.deliveries[d]
  {
  }

  lemma HolderCovered(w: World, p: nat, choice: Choice, d: nat)
    requires p < |w.procs| && Holding(w.procs[p], d) && SendOk(w, p) && d < |w.deliveries|
    requires w.procs[p].AttemptWrite? ==> choice.fault != Before
    ensures var w' := Attempt(w, p, choice);
      && p < |w'.procs| && d < |w'.deliveries| && SendOk(w', p)
      && (!Holding(w'.procs[p], d) ==> w'.deliveries[d].sends <= w'.deliveries[d].attemptCount)
  {
    if w.procs[p].AttemptWrite? { WriteCovered(w, p, choice, d); }
  }

  lemma WriteCovered(w: World, p: nat, choice: Choice, d: nat)
    requires p < |w.procs| && w.procs[p].AttemptWrite? && w.procs[p].job.delivery == d && SendOk(w, p) && d < |w.deliveries|
    requires choice.fault != Before
    ensures var w' := Attempt(w, p, choice);
      p < |w'.procs| && d < |w'.deliveries| && !Holding(w'.procs[p], d) && w'.deliveries[d].sends <= w'.deliveries[d].attemptCount
  {
  }

  /** Other steps may reset a delivery or create one, which never adds to its sends. */
  lemma OtherSends(events: map<nat, Event>, w: World, p: nat, choice: Choice)
    requires SendsOk(w) && p < |w.procs| && Attempting(w.procs[p]).None?
    ensures SendsOk(Move(events, w, p, choice))
  {
    var w' := Move(events, w, p, choice);
    OtherFrame(events, w, p, choice);
    forall q | 0 <= q < |w'.procs| ensures SendOk(w', q) {
      assert SendOk(w, q);
    }
    forall d | 0 <= d < |w'.deliveries| && Idle(w', d) ensures w'.deliveries[d].sends <= w'.deliveries[d].attemptCount {
      if d < |w.deliveries| {
        assert Idle(w, d) by {
          forall q | 0 <= q < |w.procs| ensures !Holding(w.procs[q], d) {
            assert !Holding(w'.procs[q], d);
          }
        }
      }
    }
  }

  lemma OtherFrame(events: map<nat, Event>, w: World, p: nat, choice: Choice)
    requires p < |w.procs| && Attempting(w.procs[p]).None?
    ensures var w' := Move(events, w, p, choice);
      && |w'.procs| == |w.procs| && (forall q | 0 <= q < |w.procs| && q != p :: w'.procs[q] == w.procs[q])
      && Attempting(w'.procs[p]).None?
      && |w.deliveries| <= |w'.deliveries|
      && (forall d | 0 <= d < |w'.deliveries| ::
            w'.deliveries[d].sends == 0 || (d < |w.deliveries| && w'.deliveries[d] == w.deliveries[d]))
  {
    if IsFan(w.procs[p]) { FanFrame(events, w, p, choice.fault); }
  }

  lemma FanFrame(events: map<nat, Event>, w: World, p: nat, fault: Fault)
    requires p < |w.procs| && IsFan(w.procs[p])
    ensures var w' := Fan(events, w, p, fault);
      && |w'.procs| == |w.procs| && (forall q | 0 <= q < |w.procs| && q != p :: w'.procs[q] == w.procs[q])
      && Attempting(w'.procs[p]).None?
      && |w.deliveries| <= |w'.deliveries|
      && (forall d | 0 <= d < |w'.deliveries| ::
            w'.deliveries[d].sends == 0 || (d < |w.deliveries| && w'.deliveries[d] == w.deliveries[d]))
  {
  }

  lemma StartSends(events: map<nat, Event>, w: World, t: Turn)
    requires SendsOk(w) && Exclusive(w, t) && !t.Go?
    ensures SendsOk(Step(events, w, t))
  {
    var w' := Step(events, w, t);
    forall q | 0 <= q < |w'.procs| ensures SendOk(w', q) {
      if q < |w.procs| { assert SendOk(w, q); }
    }
    forall d | 0 <= d < |w'.deliveries| && Idle(w', d) ensures w'.deliveries[d].sends <= w'.deliveries[d].attemptCount {
      assert Idle(w, d) by {
        forall q | 0 <= q < |w.procs| ensures !Holding(w.procs[q], d) {
          assert !Holding(w'.procs[q], d);
        }
      }
    }
  }

  lemma SendsKept(events: map<nat, Event>, w: World, t: Turn)
    requires SendsOk(w) && Exclusive(w, t)
    ensures SendsOk(Step(events, w, t))
  {
    if t.Go? {
      if t.proc < |w.procs| {
        if Attempting(w.procs[t.proc]).Some? {
          AttemptSends(w, t.proc, Met(events, w, t.proc, t.send, t.fault));
        } else {
          OtherSends(events, w, t.proc, Met(events, w, t.proc, t.send, t.fault));
        }
      }
    } else {
      StartSends(events, w, t);
    }
  }

  lemma {:induction false} SendsOfRun(events: map<nat, Event>, w: World, schedule: seq<Turn>)
    requires SendsOk(w) && CountsOk(w) && AllExclusive(events, w, schedule)
    ensures SendsOk(Run(events, w, schedule)) && CountsOk(Run(events, w, schedule))
    decreases |schedule|
  {
    if schedule != [] {
      SendsKept(events, w, schedule[0]);
      CountsKept(events, w, schedule[0]);
      SendsOfRun(events, Step(events, w, schedule[0]), schedule[1..]);
    }
  }

  /**
   * When attempts of a delivery do not overlap and the row write after a send takes effect, at most seven
   * requests are sent between consecutive manual retries, whenever those retries come.
   */
  lemma AtMostSevenSends(events: map<nat, Event>, schedule: seq<Turn>, d: nat)
    requires AllExclusive(events, INIT, schedule) && d < |Run(events, INIT, schedule).deliveries|
    ensures Run(events, INIT, schedule).deliveries[d].sends <= 7
  {
    var w := Run(events, INIT, schedule);
    SendsOfRun(events, INIT, schedule);
    if !Idle(w, d) {
      var p :| 0 <= p < |w.procs| && Holding(w.procs[p], d);
      assert SendOk(w, p) && HeldOk(w.procs[p]);
    } else {
      assert CountOk(w.deliveries[d]);
    }
  }
}
