/** When a delivered delivery stays delivered: rows are written by id, so a stale worker can overwrite it. */
module WebhookFinality {
  import opened Wrappers
  import opened WebhookMachine
  import opened WebhookBounds

  ghost predicate IsDelivered(w: World, d: nat) {
    d < |w.deliveries| && w.deliveries[d].status == Delivered
  }

  /** This turn writes another status from a row read earlier: a manual reset, or an attempt that fails for good. */
  predicate Overwrites(w: World, t: Turn, d: nat) {
    t.Go? && t.proc < |w.procs| && t.fault != Before &&
    var pc := w.procs[t.proc];
    (pc.ManualReset? && pc.delivery == d) || FailsForGood(pc, d)
  }

  /** The attempt has found the endpoint gone, or its answer leaves no retry. */
  predicate FailsForGood(pc: Pc, d: nat) {
    || (pc.AttemptFail? && pc.job.delivery == d)
    || (pc.AttemptWrite? && pc.job.delivery == d && !IsOk(pc.result) && NextDelay(pc.result, pc.row.attemptCount + 1).None?)
  }

  /** A delivered row loses its status in a turn exactly when a worker that read it earlier overwrites it. */
  lemma LostIffOverwritten(events: map<nat, Event>, w: World, t: Turn, d: nat)
    requires IsDelivered(w, d)
    ensures !IsDelivered(Step(events, w, t), d) <==> Overwrites(w, t, d)
  {
    if t.Go? && t.proc < |w.procs| {
      var pc := w.procs[t.proc];
      if IsFan(pc) {
        FanKeepsRow(events, w, t.proc, t.fault, d);
      } else if IsManual(pc) {
        ManualLoses(w, t.proc, t.fault, d);
      } else {
        AttemptLoses(w, t.proc, Met(events, w, t.proc, t.send, t.fault), d);
      }
    }
  }

  lemma FanKeepsRow(events: map<nat, Event>, w: World, p: nat, fault: Fault, d: nat)
    requires p < |w.procs| && IsFan(w.procs[p]) && d < |w.deliveries|
    ensures d < |Fan(events, w, p, fault).deliveries| && Fan(events, w, p, fault).deliveries[d] == w.deliveries[d]
  {
  }

  lemma ManualLoses(w: World, p: nat, fault: Fault, d: nat)
    requires p < |w.procs| && IsManual(w.procs[p]) && IsDelivered(w, d)
    ensures !IsDelivered(ManualStep(w, p, fault), d) <==> (w.procs[p].ManualReset? && w.procs[p].delivery == d && fault != Before)
  {
  }

  lemma AttemptLoses(w: World, p: nat, choice: Choice, d: nat)
    requires p < |w.procs| && !IsFan(w.procs[p]) && !IsManual(w.procs[p]) && IsDelivered(w, d)
    ensures !IsDelivered(Attempt(w, p, choice), d) <==> choice.fault != Before && FailsForGood(w.procs[p], d)
  {
  }

  // ---------- without overlap it is final ----------

  /** The process has begun an attempt or a manual retry of `d` and may still write its status. */
  predicate Working(pc: Pc, d: nat) {
    Attempting(pc) == Some(d) || ((pc.ManualRead? || pc.ManualReset?) && pc.delivery == d)
  }

  /** It has read the row already. */
  predicate HasRead(pc: Pc, d: nat) {
    Holding(pc, d) || (pc.ManualReset? && pc.delivery == d)
  }

  /** Attempts and manual retries of `d` begin only when none is under way. */
  ghost predicate NoOverlap(w: World, t: Turn, d: nat) {
    ((t.Pick? || t.Rerun?) && t.job.delivery == d) || (t.ManualRetry? && t.delivery == d) ==>
      forall p | 0 <= p < |w.procs| :: !Working(w.procs[p], d)
  }

  ghost predicate NoneOverlap(events: map<nat, Event>, w: World, schedule: seq<Turn>, d: nat)
    decreases |schedule|
  {
    schedule == [] || (NoOverlap(w, schedule[0], d) && NoneOverlap(events, Step(events, w, schedule[0]), schedule[1..], d))
  }

  ghost predicate OneWorker(w: World, d: nat) {
    forall p, q | 0 <= p < q < |w.procs| :: !(Working(w.procs[p], d) && Working(w.procs[q], d))
  }

  /** Whoever has read the row found it not delivered, and it still is not. */
  ghost predicate ReadersOk(w: World, d: nat) {
    forall p | 0 <= p < |w.procs| && HasRead(w.procs[p], d) :: d < |w.deliveries| && !IsDelivered(w, d)
  }

  ghost predicate Alone(w: World, d: nat) {
    OneWorker(w, d) && ReadersOk(w, d)
  }

  lemma OwnStep(w: World, p: nat, choice: Choice, d: nat)
    requires p < |w.procs| && Working(w.procs[p], d) && (HasRead(w.procs[p], d) ==> d < |w.deliveries| && !IsDelivered(w, d))
    ensures var w' := if IsManual(w.procs[p]) then ManualStep(w, p, choice.fault) else Attempt(w, p, choice);
      && p < |w'.procs| && (HasRead(w'.procs[p], d) ==> d < |w'.deliveries| && !IsDelivered(w', d))
      && w'.procs == w.procs[p := w'.procs[p]]
  {
  }

  /** A worker on something else leaves the status of `d` alone and does not take `d` up. */
  lemma OtherStep(events: map<nat, Event>, w: World, p: nat, choice: Choice, d: nat)
    requires p < |w.procs| && !Working(w.procs[p], d)
    ensures var w' := Move(events, w, p, choice);
      && p < |w'.procs| && !Working(w'.procs[p], d) && w'.procs == w.procs[p := w'.procs[p]]
      && (d < |w.deliveries| ==> d < |w'.deliveries| && w'.deliveries[d].status == w.deliveries[d].status)
  {
    if IsFan(w.procs[p]) {
      FanOther(events, w, p, choice.fault, d);
    } else if IsManual(w.procs[p]) {
      ManualOther(w, p, choice.fault, d);
    } else {
      AttemptOther(w, p, choice, d);
    }
  }

  lemma FanOther(events: map<nat, Event>, w: World, p: nat, fault: Fault, d: nat)
    requires p < |w.procs| && IsFan(w.procs[p])
    ensures var w' := Fan(events, w, p, fault);
      && p < |w'.procs| && !Working(w'.procs[p], d) && w'.procs == w.procs[p := w'.procs[p]]
      && (d < |w.deliveries| ==> d < |w'.deliveries| && w'.deliveries[d].status == w.deliveries[d].status)
  {
  }

  lemma ManualOther(w: World, p: nat, fault: Fault, d: nat)
    requires p < |w.procs| && IsManual(w.procs[p]) && !Working(w.procs[p], d)
    ensures var w' := ManualStep(w, p, fault);
      && p < |w'.procs| && !Working(w'.procs[p], d) && w'.procs == w.procs[p := w'.procs[p]]
      && (d < |w.deliveries| ==> d < |w'.deliveries| && w'.deliveries[d].status == w.deliveries[d].status)
  {
  }

  lemma AttemptOther(w: World, p: nat, choice: Choice, d: nat)
    requires p < |w.procs| && !IsFan(w.procs[p]) && !IsManual(w.procs[p]) && !Working(w.procs[p], d)
    ensures var w' := Attempt(w, p, choice);
      && p < |w'.procs| && !Working(w'.procs[p], d) && w'.procs == w.procs[p := w'.procs[p]]
      && (d < |w.deliveries| ==> d < |w'.deliveries| && w'.deliveries[d].status == w.deliveries[d].status)
  {
    AttemptOtherProcs(w, p, choice, d);
    if d < |w.deliveries| { AttemptOtherRow(w, p, choice, d); }
  }

  lemma AttemptOtherProcs(w: World, p: nat, choice: Choice, d: nat)
    requires p < |w.procs| && !IsFan(w.procs[p]) && !IsManual(w.procs[p]) && !Working(w.procs[p], d)
    ensures var w' := Attempt(w, p, choice); p < |w'.procs| && !Working(w'.procs[p], d) && w'.procs == w.procs[p := w'.procs[p]]
  {
  }

  lemma AttemptOtherRow(w: World, p: nat, choice: Choice, d: nat)
    requires p < |w.procs| && !Working(w.procs[p], d) && d < |w.deliveries|
    ensures var w' := Attempt(w, p, choice); d < |w'.deliveries| && w'.deliveries[d].status == w.deliveries[d].status
  {
  }

  lemma AloneKept(events: map<nat, Event>, w: World, t: Turn, d: nat)
    requires Alone(w, d) && NoOverlap(w, t, d)
    ensures Alone(Step(events, w, t), d)
    ensures IsDelivered(w, d) ==> IsDelivered(Step(events, w, t), d)
  {
    if t.Go? && t.proc < |w.procs| {
      if Working(w.procs[t.proc], d) {
        OwnKept(w, t.proc, Met(events, w, t.proc, t.send, t.fault), d);
      } else {
        OtherKept(events, w, t.proc, Met(events, w, t.proc, t.send, t.fault), d);
      }
    } else {
      StartKept(events, w, t, d);
    }
    if IsDelivered(w, d) {
      DeliveredKept(events, w, t, d);
    }
  }

  lemma StartKept(events: map<nat, Event>, w: World, t: Turn, d: nat)
    requires Alone(w, d) && NoOverlap(w, t, d) && !(t.Go? && t.proc < |w.procs|)
    ensures Alone(Step(events, w, t), d)
  {
  }

  lemma DeliveredKept(events: map<nat, Event>, w: World, t: Turn, d: nat)
    requires ReadersOk(w, d) && IsDelivered(w, d)
    ensures IsDelivered(Step(events, w, t), d)
  {
    NothingOverwrites(w, t, d);
    LostIffOverwritten(events, w, t, d);
  }

  lemma OtherKept(events: map<nat, Event>, w: World, p: nat, choice: Choice, d: nat)
    requires Alone(w, d) && p < |w.procs| && !Working(w.procs[p], d)
    ensures Alone(Move(events, w, p, choice), d)
  {
    OtherStep(events, w, p, choice, d);
  }

  lemma NothingOverwrites(w: World, t: Turn, d: nat)
    requires ReadersOk(w, d) && IsDelivered(w, d)
    ensures !Overwrites(w, t, d)
  {
  }

  lemma OwnKept(w: World, p: nat, choice: Choice, d: nat)
    requires Alone(w, d) && p < |w.procs| && Working(w.procs[p], d)
    ensures Alone(if IsManual(w.procs[p]) then ManualStep(w, p, choice.fault) else Attempt(w, p, choice), d)
  {
    var w' := if IsManual(w.procs[p]) then ManualStep(w, p, choice.fault) else Attempt(w, p, choice);
    OwnStep(w, p, choice, d);
    OwnTurn(w, p, choice, d);
    forall q | 0 <= q < |w'.procs| && q != p ensures !Working(w'.procs[q], d) {
      assert w'.procs[q] == w.procs[q];
    }
  }

  lemma OwnTurn(w: World, p: nat, choice: Choice, d: nat)
    requires p < |w.procs| && Working(w.procs[p], d)
    ensures !IsFan(w.procs[p])
  {
  }

  lemma {:induction false} AloneThroughout(events: map<nat, Event>, w: World, schedule: seq<Turn>, d: nat)
    requires Alone(w, d) && NoneOverlap(events, w, schedule, d)
    ensures Alone(Run(events, w, schedule), d)
    ensures IsDelivered(w, d) ==> IsDelivered(Run(events, w, schedule), d)
    decreases |schedule|
  {
    if schedule != [] {
      AloneKept(events, w, schedule[0], d);
      AloneThroughout(events, Step(events, w, schedule[0]), schedule[1..], d);
    }
  }

  lemma {:induction false} OverlapSplits(events: map<nat, Event>, w: World, s: seq<Turn>, more: seq<Turn>, d: nat)
    requires NoneOverlap(events, w, s + more, d)
    ensures NoneOverlap(events, w, s, d) && NoneOverlap(events, Run(events, w, s), more, d)
    decreases |s|
  {
    if s == [] {
      assert s + more == more;
    } else {
      assert (s + more)[1..] == s[1..] + more;
      OverlapSplits(events, Step(events, w, s[0]), s[1..], more, d);
    }
  }

  /** If attempts and manual retries of a delivery never overlap, delivered is final. */
  lemma DeliveredIsFinal(events: map<nat, Event>, s: seq<Turn>, more: seq<Turn>, d: nat)
    requires NoneOverlap(events, INIT, s + more, d) && IsDelivered(Run(events, INIT, s), d)
    ensures IsDelivered(Run(events, INIT, s + more), d)
  {
    OverlapSplits(events, INIT, s, more, d);
    AloneThroughout(events, INIT, s, d);
    AloneThroughout(events, Run(events, INIT, s), more, d);
    RunAppend(events, INIT, s, more);
  }

  // ---------- with overlap it is not ----------

  const THE_EVENT := Event("biz", "test", "payment.completed")
  const THE_ENDPOINT := Endpoint("biz", "test", true, {"payment.completed"})
  const THE_JOB := JobId(0, First)

  /** The store of the race: one row, one endpoint, a fan-out that is done, and two workers on one job. */
  function Racing(endpoint: Endpoint, row: Delivery, first: Pc, second: Pc): World {
    World([row], map[THE_JOB := Active], map[0 := endpoint], [FanCreate(0, [], 1), first, second], {(0, 0)})
  }

  const FRESH := Delivery(0, 0, Pending, 0, 0, 0)

  /** One endpoint and one event: the delivery is fanned out and queued. */
  lemma FannedOut(events: map<nat, Event>) returns (s: seq<Turn>)
    requires events == map[0 := THE_EVENT]
    ensures Run(events, INIT, s) ==
      World([FRESH], map[THE_JOB := Queued], map[0 := THE_ENDPOINT], [FanCreate(0, [], 1)], {(0, 0)})
  {
    s := RowMade(events);
    s := Extended(events, s, Go(0, Status(200), NoFault),
                  World([FRESH], map[THE_JOB := Queued], map[0 := THE_ENDPOINT], [FanCreate(0, [], 1)], {(0, 0)}));
  }

  lemma RowMade(events: map<nat, Event>) returns (s: seq<Turn>)
    requires events == map[0 := THE_EVENT]
    ensures Run(events, INIT, s) == World([FRESH], map[], map[0 := THE_ENDPOINT], [FanEnqueue(0, 0, [], 1)], {(0, 0)})
  {
    s := [];
    s := Extended(events, s, SetEndpoint(0, THE_ENDPOINT), World([], map[], map[0 := THE_ENDPOINT], [], {}));
    s := Extended(events, s, FanOut(0, [0]), World([], map[], map[0 := THE_ENDPOINT], [FanRead(0, [0])], {}));
    assert Found(Run(events, INIT, s), THE_EVENT, [0]) == [0];
    s := Extended(events, s, Go(0, Status(200), NoFault),
                  World([], map[], map[0 := THE_ENDPOINT], [FanCreate(0, [0], 0)], {(0, 0)}));
    s := Extended(events, s, Go(0, Status(200), NoFault),
                  World([FRESH], map[], map[0 := THE_ENDPOINT], [FanEnqueue(0, 0, [], 1)], {(0, 0)}));
  }

  lemma Extended(events: map<nat, Event>, s: seq<Turn>, t: Turn, w: World) returns (s': seq<Turn>)
    requires Step(events, Run(events, INIT, s), t) == w
    ensures s' == s + [t] && Run(events, INIT, s') == w
  {
    RunOneMore(events, s, t);
    s' := s + [t];
  }

  /** A second worker takes up the job while the first still has it. */
  lemma BothStart(events: map<nat, Event>, s0: seq<Turn>) returns (s: seq<Turn>)
    requires Run(events, INIT, s0) == World([FRESH], map[THE_JOB := Queued], map[0 := THE_ENDPOINT], [FanCreate(0, [], 1)], {(0, 0)})
    ensures Run(events, INIT, s) == Racing(THE_ENDPOINT, FRESH, AttemptRead(THE_JOB), AttemptRead(THE_JOB))
  {
    s := Extended(events, s0, Pick(THE_JOB),
                  World([FRESH], map[THE_JOB := Active], map[0 := THE_ENDPOINT], [FanCreate(0, [], 1), AttemptRead(THE_JOB)], {(0, 0)}));
    s := Extended(events, s, Rerun(THE_JOB), Racing(THE_ENDPOINT, FRESH, AttemptRead(THE_JOB), AttemptRead(THE_JOB)));
  }

  lemma BothRead(events: map<nat, Event>, s0: seq<Turn>) returns (s: seq<Turn>)
    requires events == map[0 := THE_EVENT]
    requires Run(events, INIT, s0) == Racing(THE_ENDPOINT, FRESH, AttemptRead(THE_JOB), AttemptRead(THE_JOB))
    ensures Run(events, INIT, s) == Racing(THE_ENDPOINT, FRESH, AttemptSend(THE_JOB, FRESH), AttemptLoad(THE_JOB, FRESH))
  {
    s := Extended(events, s0, Go(1, Status(200), NoFault),
                  Racing(THE_ENDPOINT, FRESH, AttemptLoad(THE_JOB, FRESH), AttemptRead(THE_JOB)));
    s := Extended(events, s, Go(2, Status(200), NoFault),
                  Racing(THE_ENDPOINT, FRESH, AttemptLoad(THE_JOB, FRESH), AttemptLoad(THE_JOB, FRESH)));
    s := Extended(events, s, Go(1, Status(200), NoFault),
                  Racing(THE_ENDPOINT, FRESH, AttemptSend(THE_JOB, FRESH), AttemptLoad(THE_JOB, FRESH)));
  }

  lemma FirstDelivers(events: map<nat, Event>, s0: seq<Turn>) returns (s: seq<Turn>)
    requires Run(events, INIT, s0) == Racing(THE_ENDPOINT, FRESH, AttemptSend(THE_JOB, FRESH), AttemptLoad(THE_JOB, FRESH))
    ensures Run(events, INIT, s) ==
      Racing(THE_ENDPOINT, Delivery(0, 0, Delivered, 1, 1, 0), AttemptEnd(THE_JOB), AttemptLoad(THE_JOB, FRESH))
  {
    var sent := Delivery(0, 0, Pending, 0, 1, 0);
    s := Extended(events, s0, Go(1, Status(200), NoFault),
                  Racing(THE_ENDPOINT, sent, AttemptWrite(THE_JOB, FRESH, Status(200)), AttemptLoad(THE_JOB, FRESH)));
    s := Extended(events, s, Go(1, Status(200), NoFault),
                  Racing(THE_ENDPOINT, Delivery(0, 0, Delivered, 1, 1, 0), AttemptEnd(THE_JOB), AttemptLoad(THE_JOB, FRESH)));
  }

  /** The merchant deactivates the endpoint, and the second worker finds it so. */
  lemma Deactivated(events: map<nat, Event>, s0: seq<Turn>) returns (s: seq<Turn>)
    requires Run(events, INIT, s0) ==
      Racing(THE_ENDPOINT, Delivery(0, 0, Delivered, 1, 1, 0), AttemptEnd(THE_JOB), AttemptLoad(THE_JOB, FRESH))
    ensures Run(events, INIT, s) ==
      Racing(THE_ENDPOINT.(active := false), Delivery(0, 0, Delivered, 1, 1, 0), AttemptEnd(THE_JOB), AttemptFail(THE_JOB, FRESH))
  {
    var off := THE_ENDPOINT.(active := false);
    s := Extended(events, s0, SetEndpoint(0, off),
                  Racing(off, Delivery(0, 0, Delivered, 1, 1, 0), AttemptEnd(THE_JOB), AttemptLoad(THE_JOB, FRESH)));
    s := Extended(events, s, Go(2, NetworkError, NoFault),
                  Racing(off, Delivery(0, 0, Delivered, 1, 1, 0), AttemptEnd(THE_JOB), AttemptFail(THE_JOB, FRESH)));
  }

  /**
   * Two workers read the pending row; the first delivers, the merchant deactivates the endpoint, and the second finds
   * it inactive and marks the delivered delivery failed.
   */
  lemma {:induction false} DeliveredCanBeLost() returns (schedule: seq<Turn>, t: Turn)
    ensures IsDelivered(Run(map[0 := THE_EVENT], INIT, schedule), 0)
    ensures !IsDelivered(Run(map[0 := THE_EVENT], INIT, schedule + [t]), 0)
  {
    var events := map[0 := THE_EVENT];
    schedule := FannedOut(events);
    schedule := BothStart(events, schedule);
    schedule := BothRead(events, schedule);
    schedule := FirstDelivers(events, schedule);
    schedule := Deactivated(events, schedule);
    t := Go(2, NetworkError, NoFault);
    assert Overwrites(Run(events, INIT, schedule), t, 0);
    RunOneMore(events, schedule, t);
    LostIffOverwritten(events, Run(events, INIT, schedule), t, 0);
  }
}
