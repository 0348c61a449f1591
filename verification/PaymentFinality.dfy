/**
 * Completion over whole runs: what a finality job writes is what Horizon answered about the recorded transaction
 * (finalizePayment in src/modules/reconciler/reconciler.service.ts).
 */
module PaymentFinality {
  import opened Wrappers
  import opened Lifecycle
  import opened PaymentMachine
  import opened PaymentInvariant
  import opened PaymentSafety
  import opened PaymentTheorems
  import opened PaymentHistory
  import opened PaymentCalls

  /** In turn `k` process `q` asked Horizon about the hash the payment shows, and this was the answer. */
  predicate AskedAt(c: Chain, schedule: seq<Turn>, k: nat, q: nat, id: nat, answer: Horizon) {
    k < |schedule| && schedule[k].Go? && schedule[k].proc == q && schedule[k].horizon == answer && schedule[k].fault == NoFault &&
    var w := Run(c, INIT, schedule[..k]);
    && q < |w.procs| && w.procs[q].GetTransaction? && w.procs[q].row.id == id && id in w.payments
    && w.payments[id].transactionHash.Some? && w.payments[id].transactionHash == w.procs[q].row.transactionHash
  }

  ghost predicate Asked(c: Chain, schedule: seq<Turn>, q: nat, id: nat, answer: Horizon) {
    exists k :: AskedAt(c, schedule, k, q, id, answer)
  }

  /** Horizon had the transaction as successful, or did not. */
  ghost predicate FoundGood(c: Chain, schedule: seq<Turn>, q: nat, id: nat) {
    Asked(c, schedule, q, id, Transaction(true))
  }

  ghost predicate FoundBad(c: Chain, schedule: seq<Turn>, q: nat, id: nat) {
    Asked(c, schedule, q, id, Transaction(false)) || Asked(c, schedule, q, id, Missing)
  }

  // ---------- the requests of the processes ----------

  function RequestOf(pc: Pc): Option<(Request, Job)> {
    match pc
    case Read(req, job) => Some((req, job))
    case CompareAndSet(req, job, _) => Some((req, job))
    case LostReload(req, job, _) => Some((req, job))
    case Reload(req, job, _) => Some((req, job))
    case EmitEvent(req, job, _) => Some((req, job))
    case SyncLink(req, job, _) => Some((req, job))
    case Returned(req, job, _) => Some((req, job))
    case Refused(req, job) => Some((req, job))
    case _ => None
  }

  predicate Completing(pc: Pc) {
    RequestOf(pc).Some? && RequestOf(pc).value.0.ToCompleted?
  }

  predicate Refuting(pc: Pc) {
    RequestOf(pc).Some? && RequestOf(pc).value.0.ToFailed? && RequestOf(pc).value.1 == Finality
  }

  /** A request to complete, and a finality job's request to fail, rest on an answer its own process was given. */
  ghost predicate PcGrounded(c: Chain, schedule: seq<Turn>, q: nat, pc: Pc) {
    && (pc.GetTransaction? ==> pc.row.transactionHash.Some?)
    && (Completing(pc) ==> FoundGood(c, schedule, q, RequestOf(pc).value.0.id))
    && (Refuting(pc) ==> FoundBad(c, schedule, q, RequestOf(pc).value.0.id))
  }

  ghost predicate Verified(c: Chain, schedule: seq<Turn>, id: nat) {
    exists q :: FoundGood(c, schedule, q, id)
  }

  ghost predicate Grounded(c: Chain, schedule: seq<Turn>, w: World) {
    && (forall q | 0 <= q < |w.procs| :: PcGrounded(c, schedule, q, w.procs[q]))
    && (forall id | id in w.trails && Completed in w.trails[id] :: Verified(c, schedule, id))
  }

  lemma AskedLater(c: Chain, s: seq<Turn>, t: Turn, q: nat, id: nat, answer: Horizon)
    requires Asked(c, s, q, id, answer)
    ensures Asked(c, s + [t], q, id, answer)
  {
    var k: nat :| AskedAt(c, s, k, q, id, answer);
    assert (s + [t])[..k] == s[..k];
    assert AskedAt(c, s + [t], k, q, id, answer);
  }

  lemma GroundedLater(c: Chain, s: seq<Turn>, t: Turn, q: nat, pc: Pc)
    requires PcGrounded(c, s, q, pc)
    ensures PcGrounded(c, s + [t], q, pc)
  {
    if Completing(pc) { AskedLater(c, s, t, q, RequestOf(pc).value.0.id, Transaction(true)); }
    if Refuting(pc) {
      var id := RequestOf(pc).value.0.id;
      if Asked(c, s, q, id, Missing) { AskedLater(c, s, t, q, id, Missing); } else { AskedLater(c, s, t, q, id, Transaction(false)); }
    }
  }

  /** The request a finality job goes on with once Horizon has answered. */
  predicate Pursues(pc: Pc, id: nat, now: int, answer: Horizon) {
    match answer
    case Transaction(true) => pc == Read(ToCompleted(id, now), Finality)
    case Transaction(false) => pc == Read(ToFailed(id, "tx_unsuccessful"), Finality)
    case Missing => pc == Read(ToFailed(id, "tx_unsuccessful"), Finality)
    case _ => pc == Skipped
  }

  /** Where a request can come from: it stays what it was, and Horizon's answer decides the one of a finality job. */
  lemma RequestComesFrom(c: Chain, w: World, p: nat, now: int, horizon: Horizon)
    requires p < |w.procs|
    ensures var pc, pc' := w.procs[p], Move(c, w, p, now, horizon).procs[p];
      && (RequestOf(pc').Some? && RequestOf(pc).Some? ==> RequestOf(pc') == RequestOf(pc))
      && (pc.GetTransaction? ==> Pursues(pc', pc.row.id, now, horizon))
      && (RequestOf(pc).None? && !pc.GetTransaction? ==> !Completing(pc') && !Refuting(pc'))
      && (RequestOf(pc).Some? ==> !pc'.GetTransaction?)
      && (pc'.GetTransaction? ==> pc' == pc || pc'.row.transactionHash.Some?)
  {
    if IsTransiting(w.procs[p]) { TransitKeepsRequest(w, p); }
    else if !IsCreating(w.procs[p]) && !w.procs[p].SyncLink? && !IsOver(w.procs[p]) {
      PrepareRequests(c, w, w.procs[p], now, horizon);
    }
  }

  lemma TransitKeepsRequest(w: World, p: nat)
    requires p < |w.procs| && IsTransiting(w.procs[p])
    ensures var pc' := Transition(w, p, w.procs[p]).procs[p];
      !pc'.GetTransaction? && (if RequestOf(pc').Some? then RequestOf(pc') == RequestOf(w.procs[p]) else pc'.Conflicted?)
  {
  }

  lemma PrepareRequests(c: Chain, w: World, pc: Pc, now: int, horizon: Horizon)
    requires !IsCreating(pc) && !IsTransiting(pc) && !pc.SyncLink? && !IsOver(pc)
    ensures var pc' := Prepare(c, w, pc, now, horizon);
      && (if pc.GetTransaction? then Pursues(pc', pc.row.id, now, horizon) else !Completing(pc') && !Refuting(pc'))
      && (pc'.GetTransaction? ==> pc'.row.transactionHash.Some?)
  {
  }

  // ---------- every turn keeps it ----------

  lemma AskedNow(c: Chain, s: seq<Turn>, t: Turn, w: World)
    requires w == Run(c, INIT, s) && Inv(w) && t.Go? && t.proc < |w.procs| && t.fault == NoFault
    requires w.procs[t.proc].GetTransaction? && w.procs[t.proc].row.transactionHash.Some?
    ensures Asked(c, s + [t], t.proc, w.procs[t.proc].row.id, t.horizon)
  {
    assert ProcOk(w, w.procs[t.proc]);
    assert (s + [t])[..|s|] == s;
    assert AskedAt(c, s + [t], |s|, t.proc, w.procs[t.proc].row.id, t.horizon);
  }

  lemma OwnGrounded(c: Chain, s: seq<Turn>, t: Turn, w: World)
    requires w == Run(c, INIT, s) && Inv(w) && Grounded(c, s, w) && t.Go? && t.proc < |w.procs|
    ensures var w' := Step(c, w, t); t.proc < |w'.procs| && PcGrounded(c, s + [t], t.proc, w'.procs[t.proc])
  {
    var p, pc := t.proc, w.procs[t.proc];
    assert PcGrounded(c, s, p, pc);
    GroundedLater(c, s, t, p, pc);
    AttemptedProc(c, w, p, t.now, t.horizon, t.fault);
    if t.fault == NoFault || !CanFail(pc) {
      RequestComesFrom(c, w, p, t.now, t.horizon);
      if pc.GetTransaction? { AskedNow(c, s, t, w); }
    }
  }

  lemma CompletedComesFrom(c: Chain, w: World, t: Turn, id: nat)
    requires Inv(w) && id in Step(c, w, t).trails && Completed in Step(c, w, t).trails[id]
    requires id in w.trails ==> Completed !in w.trails[id]
    ensures t.Go? && t.proc < |w.procs| && w.procs[t.proc].CompareAndSet? && w.procs[t.proc].req.ToCompleted? &&
      w.procs[t.proc].req.id == id
  {
    if t.Go? && t.proc < |w.procs| {
      AttemptedTrails(c, w, t.proc, t.now, t.horizon, t.fault);
      MoveCompletes(c, w, t.proc, t.now, t.horizon, id);
    }
  }

  lemma AttemptedTrails(c: Chain, w: World, p: nat, now: int, horizon: Horizon, fault: Fault)
    requires p < |w.procs|
    ensures Attempted(c, w, p, now, horizon, fault).trails in {w.trails, Move(c, w, p, now, horizon).trails}
  {
  }

  lemma MoveCompletes(c: Chain, w: World, p: nat, now: int, horizon: Horizon, id: nat)
    requires Inv(w) && p < |w.procs| && id in Move(c, w, p, now, horizon).trails &&
      Completed in Move(c, w, p, now, horizon).trails[id]
    requires id in w.trails ==> Completed !in w.trails[id]
    ensures w.procs[p].CompareAndSet? && w.procs[p].req.ToCompleted? && w.procs[p].req.id == id
  {
    if IsTransiting(w.procs[p]) {
      TransitionWrites(w, p);
    } else {
      OtherWrites(c, w, p, now, horizon);
      if id !in w.trails { OtherTrails(c, w, p, now, horizon, id); }
    }
  }

  lemma OtherTrails(c: Chain, w: World, p: nat, now: int, horizon: Horizon, id: nat)
    requires p < |w.procs| && !IsTransiting(w.procs[p]) && id in Move(c, w, p, now, horizon).trails && id !in w.trails
    ensures Move(c, w, p, now, horizon).trails[id] == [Created]
  {
  }

  lemma {:induction false} RunGrounded(c: Chain, schedule: seq<Turn>)
    ensures Inv(Run(c, INIT, schedule)) && Grounded(c, schedule, Run(c, INIT, schedule))
    decreases |schedule|
  {
    InitOk();
    RunKeeps(c, INIT, schedule);
    if schedule != [] {
      var n := |schedule| - 1;
      var s, t := schedule[..n], schedule[n];
      assert schedule == s + [t];
      RunGrounded(c, s);
      RunOneMore(c, s, t);
      StepGrounded(c, s, t, Run(c, INIT, s));
    }
  }

  lemma StepGrounded(c: Chain, s: seq<Turn>, t: Turn, w: World)
    requires w == Run(c, INIT, s) && Inv(w) && Grounded(c, s, w)
    ensures Grounded(c, s + [t], Step(c, w, t))
  {
    var w' := Step(c, w, t);
    forall q | 0 <= q < |w'.procs| ensures PcGrounded(c, s + [t], q, w'.procs[q]) {
      if t.Go? && t.proc < |w.procs| {
        OnlyOneAttempts(c, w, t.proc, t.now, t.horizon, t.fault);
        if q == t.proc { OwnGrounded(c, s, t, w); } else { GroundedLater(c, s, t, q, w.procs[q]); }
      } else if q < |w.procs| {
        GroundedLater(c, s, t, q, w.procs[q]);
      }
    }
    forall id | id in w'.trails && Completed in w'.trails[id] ensures Verified(c, s + [t], id) {
      CompletedStaysVerified(c, s, t, w, id);
    }
  }

  lemma CompletedStaysVerified(c: Chain, s: seq<Turn>, t: Turn, w: World, id: nat)
    requires w == Run(c, INIT, s) && Inv(w) && Grounded(c, s, w)
    requires id in Step(c, w, t).trails && Completed in Step(c, w, t).trails[id]
    ensures Verified(c, s + [t], id)
  {
    var q: nat;
    if id in w.trails && Completed in w.trails[id] {
      q :| FoundGood(c, s, q, id);
    } else {
      CompletedComesFrom(c, w, t, id);
      q := t.proc;
      assert PcGrounded(c, s, q, w.procs[q]);
    }
    AskedLater(c, s, t, q, id, Transaction(true));
    assert FoundGood(c, s + [t], q, id);
  }

  // ---------- theorems ----------

  /**
   * In every run a payment that was ever completed had a turn in which a finality job asked Horizon about the hash it
   * showed and was answered that the transaction is successful.
   */
  lemma CompletedWasVerified(c: Chain, schedule: seq<Turn>, id: nat)
    requires var w := Run(c, INIT, schedule); id in w.trails && Completed in w.trails[id]
    ensures exists k, q :: AskedAt(c, schedule, k, q, id, Transaction(true))
  {
    RunGrounded(c, schedule);
    var q: nat :| FoundGood(c, schedule, q, id);
    var k: nat :| AskedAt(c, schedule, k, q, id, Transaction(true));
  }

  /**
   * In every run a finality job that is about to write, or has written, a failure asked Horizon about the hash the payment
   * showed and was answered that the transaction failed or is not there.
   */
  lemma FailureWasFound(c: Chain, schedule: seq<Turn>, q: nat)
    requires var w := Run(c, INIT, schedule); q < |w.procs| && Refuting(w.procs[q])
    ensures var id := RequestOf(Run(c, INIT, schedule).procs[q]).value.0.id;
      FoundBad(c, schedule, q, id)
  {
    RunGrounded(c, schedule);
  }

  /** The process still pursues that request, or has ended. */
  predicate StillPursues(pc: Pc, req: Request) {
    if RequestOf(pc).Some? then RequestOf(pc).value == (req, Finality) else pc.Conflicted? || pc.DatabaseError?
  }

  lemma PursuesOn(c: Chain, w: World, t: Turn, q: nat, req: Request)
    requires q < |w.procs| && StillPursues(w.procs[q], req)
    ensures q < |Step(c, w, t).procs| && StillPursues(Step(c, w, t).procs[q], req)
  {
    if t.Go? && t.proc < |w.procs| {
      OnlyOneAttempts(c, w, t.proc, t.now, t.horizon, t.fault);
      if q == t.proc { OwnPursuesOn(c, w, q, t.now, t.horizon, t.fault, req); }
    }
  }

  lemma OwnPursuesOn(c: Chain, w: World, q: nat, now: int, horizon: Horizon, fault: Fault, req: Request)
    requires q < |w.procs| && StillPursues(w.procs[q], req)
    ensures var w' := Attempted(c, w, q, now, horizon, fault); q < |w'.procs| && StillPursues(w'.procs[q], req)
  {
    AttemptedProc(c, w, q, now, horizon, fault);
    if IsTransiting(w.procs[q]) { TransitPursues(w, q, req); }
  }

  lemma TransitPursues(w: World, q: nat, req: Request)
    requires q < |w.procs| && IsTransiting(w.procs[q]) && StillPursues(w.procs[q], req)
    ensures StillPursues(Transition(w, q, w.procs[q]).procs[q], req)
  {
    TransitKeepsRequest(w, q);
  }

  lemma {:induction false} PursuesForGood(c: Chain, w: World, more: seq<Turn>, q: nat, req: Request)
    requires q < |w.procs| && StillPursues(w.procs[q], req)
    ensures q < |Run(c, w, more).procs| && StillPursues(Run(c, w, more).procs[q], req)
    decreases |more|
  {
    if more != [] {
      PursuesOn(c, w, more[0], q, req);
      PursuesForGood(c, Step(c, w, more[0]), more[1..], q, req);
    }
  }

  /**
   * A finality job told that the transaction is successful never asks for anything but to complete the payment, and one
   * told otherwise for anything but to fail it, whatever runs and fails afterwards.
   */
  lemma AnswerDecides(c: Chain, w: World, q: nat, now: int, answer: Horizon, more: seq<Turn>)
    requires q < |w.procs| && w.procs[q].GetTransaction?
    ensures var id, w' := w.procs[q].row.id, Run(c, Step(c, w, Go(q, now, answer, NoFault)), more);
      && q < |w'.procs|
      && (answer == Transaction(true) ==> StillPursues(w'.procs[q], ToCompleted(id, now)))
      && (answer == Transaction(false) || answer == Missing ==> StillPursues(w'.procs[q], ToFailed(id, "tx_unsuccessful")))
  {
    var id, w1 := w.procs[q].row.id, Step(c, w, Go(q, now, answer, NoFault));
    RequestComesFrom(c, w, q, now, answer);
    OnlyOneAttempts(c, w, q, now, answer, NoFault);
    if answer == Transaction(true) {
      PursuesForGood(c, w1, more, q, ToCompleted(id, now));
    } else if answer == Transaction(false) || answer == Missing {
      PursuesForGood(c, w1, more, q, ToFailed(id, "tx_unsuccessful"));
    } else {
      OthersLast(c, w1, more, q);
    }
  }

  lemma {:induction false} OthersLast(c: Chain, w: World, more: seq<Turn>, q: nat)
    requires q < |w.procs|
    ensures q < |Run(c, w, more).procs|
    decreases |more|
  {
    if more != [] {
      var t := more[0];
      if t.Go? && t.proc < |w.procs| { OnlyOneAttempts(c, w, t.proc, t.now, t.horizon, t.fault); }
      OthersLast(c, Step(c, w, t), more[1..], q);
    }
  }
}
