/** Expiry over whole runs: no payment is expired before its time, whoever expires it. */
module PaymentExpiry {
  import opened Wrappers
  import opened Amounts
  import opened Verifier
  import opened Lifecycle
  import opened PaymentMachine
  import opened PaymentInvariant
  import opened PaymentSafety
  import opened PaymentTheorems
  import opened PaymentHistory
  import opened PaymentCalls
  import opened PaymentOutcomes
  import opened PaymentFinality

  /** The first record that bears the memo pays what is asked, but too late. */
  ghost predicate PaidLate(terms: Target, records: seq<HorizonRecord>, issuers: Issuers) {
    exists k: nat :: IsFirst(records, terms.linkMemo, k) && Late(terms, records[k], issuers)
  }

  ghost predicate Late(terms: Target, record: HorizonRecord, issuers: Issuers) {
    && record.to == terms.destinationAddress && AskedAsset(record, terms, issuers)
    && Grammatical(record.amount) && Grammatical(terms.amount) && Value(record.amount) == Value(terms.amount)
    && !InTime(record, terms)
  }

  /** What a worker sees before it asks to expire payment `id`: the clock past its expiry, or a late payment. */
  ghost predicate Due(c: Chain, w: World, pc: Pc, now: int, id: nat) {
    match pc
    case ScanOverdue(i) => i == id && id in w.payments && PastDue(w.payments[id].terms, now)
    case PollRow(row) => row.id == id && id in w.payments && PastDue(w.payments[id].terms, now)
    case LoadHashes(row, records) => row.id == id && id in w.payments && PaidLate(w.payments[id].terms, records, c.issuers)
    case _ => false
  }

  /** In turn `k` process `q` saw the payment due. */
  ghost predicate DueAt(c: Chain, schedule: seq<Turn>, k: nat, q: nat, id: nat) {
    k < |schedule| && schedule[k].Go? && schedule[k].proc == q &&
    var w := Run(c, INIT, schedule[..k]);
    q < |w.procs| && Due(c, w, w.procs[q], schedule[k].now, id)
  }

  ghost predicate SeenDue(c: Chain, schedule: seq<Turn>, q: nat, id: nat) {
    exists k :: DueAt(c, schedule, k, q, id)
  }

  predicate Expiring(pc: Pc) {
    RequestOf(pc).Some? && RequestOf(pc).value.0.ToExpired?
  }

  ghost predicate PcDue(c: Chain, schedule: seq<Turn>, q: nat, pc: Pc) {
    Expiring(pc) ==> SeenDue(c, schedule, q, RequestOf(pc).value.0.id)
  }

  ghost predicate EverDue(c: Chain, schedule: seq<Turn>, id: nat) {
    exists q :: SeenDue(c, schedule, q, id)
  }

  ghost predicate AllDue(c: Chain, schedule: seq<Turn>, w: World) {
    && (forall q | 0 <= q < |w.procs| :: PcDue(c, schedule, q, w.procs[q]))
    && (forall id | id in w.trails && Expired in w.trails[id] :: EverDue(c, schedule, id))
  }

  lemma SeenLater(c: Chain, s: seq<Turn>, t: Turn, q: nat, id: nat)
    requires SeenDue(c, s, q, id)
    ensures SeenDue(c, s + [t], q, id)
  {
    var k: nat :| DueAt(c, s, k, q, id);
    assert (s + [t])[..k] == s[..k];
    assert DueAt(c, s + [t], k, q, id);
  }

  // ---------- where a request to expire comes from ----------

  lemma VerdictIsLate(terms: Target, records: seq<HorizonRecord>, known: set<string>, issuers: Issuers)
    requires var v := FirstMatch(terms, records, known, issuers); v.Mismatch? && v.code == LateArrival
    ensures PaidLate(terms, records, issuers)
  {
    NoMatchMeansNoCandidate(terms, records, known, issuers);
    PossibleAnswers(terms, records, known, issuers);
    var k := FirstExists(records, terms.linkMemo);
    FirstCandidateDecides(terms, records, k, known, issuers);
    CulpritIsRecord(terms, records[k], known, issuers);
    CodesSayWhy(terms, records[k], known, issuers);
    assert Late(terms, records[k], issuers);
  }

  lemma CulpritIsRecord(terms: Target, record: HorizonRecord, known: set<string>, issuers: Issuers)
    ensures var v := CheckRecord(terms, record, known, issuers); v.Mismatch? ==> v.culprit == Some(record)
  {
  }

  /** A worker that turns to expiring a payment has just seen it due. */
  lemma ExpiresWhenDue(c: Chain, w: World, pc: Pc, now: int, horizon: Horizon)
    requires ProcOk(w, pc) && !IsCreating(pc) && !IsTransiting(pc) && !pc.SyncLink? && !IsOver(pc)
    ensures var pc' := Prepare(c, w, pc, now, horizon);
      Expiring(pc') ==> Due(c, w, pc, now, RequestOf(pc').value.0.id)
  {
    if pc.LoadHashes? {
      var known := ForeignHashes(w, pc.records, pc.row.id);
      var verdict := FirstMatch(pc.row.terms, pc.records, known, c.issuers);
      LateOnly(pc.row, verdict, now);
      if verdict.Mismatch? && verdict.code == LateArrival { VerdictIsLate(pc.row.terms, pc.records, known, c.issuers); }
    }
  }

  lemma LateOnly(row: Payment, verdict: VerifyResult, now: int)
    ensures var pc := AfterVerdict(row, verdict, now);
      Expiring(pc) ==> verdict.Mismatch? && verdict.code == LateArrival && RequestOf(pc).value.0.id == row.id
  {
  }

  lemma OwnDue(c: Chain, s: seq<Turn>, t: Turn, w: World)
    requires w == Run(c, INIT, s) && Inv(w) && AllDue(c, s, w) && t.Go? && t.proc < |w.procs|
    ensures var w' := Step(c, w, t); t.proc < |w'.procs| && PcDue(c, s + [t], t.proc, w'.procs[t.proc])
  {
    var p, pc := t.proc, w.procs[t.proc];
    AttemptedProc(c, w, p, t.now, t.horizon, t.fault);
    OwnRequest(c, w, p, t.now, t.horizon);
    assert PcDue(c, s, p, pc);
    if Expiring(pc) { SeenLater(c, s, t, p, RequestOf(pc).value.0.id); }
    var pc' := Move(c, w, p, t.now, t.horizon).procs[p];
    if Expiring(pc') && !Expiring(pc) {
      assert (s + [t])[..|s|] == s;
      assert DueAt(c, s + [t], |s|, p, RequestOf(pc').value.0.id);
    }
  }

  lemma OwnRequest(c: Chain, w: World, p: nat, now: int, horizon: Horizon)
    requires Inv(w) && p < |w.procs|
    ensures var pc, pc' := w.procs[p], Move(c, w, p, now, horizon).procs[p];
      Expiring(pc') ==> RequestOf(pc') == RequestOf(pc) || Due(c, w, pc, now, RequestOf(pc').value.0.id)
  {
    var pc := w.procs[p];
    if IsTransiting(pc) {
      TransitKeepsRequest(w, p);
    } else if !IsCreating(pc) && !pc.SyncLink? && !IsOver(pc) {
      assert ProcOk(w, pc);
      ExpiresWhenDue(c, w, pc, now, horizon);
    }
  }

  lemma ExpiredComesFrom(c: Chain, w: World, t: Turn, id: nat)
    requires Inv(w) && id in Step(c, w, t).trails && Expired in Step(c, w, t).trails[id]
    requires id in w.trails ==> Expired !in w.trails[id]
    ensures t.Go? && t.proc < |w.procs| && w.procs[t.proc].CompareAndSet? && w.procs[t.proc].req == ToExpired(id)
  {
    if t.Go? && t.proc < |w.procs| {
      AttemptedTrails(c, w, t.proc, t.now, t.horizon, t.fault);
      MoveExpires(c, w, t.proc, t.now, t.horizon, id);
    }
  }

  lemma MoveExpires(c: Chain, w: World, p: nat, now: int, horizon: Horizon, id: nat)
    requires Inv(w) && p < |w.procs| && id in Move(c, w, p, now, horizon).trails &&
      Expired in Move(c, w, p, now, horizon).trails[id]
    requires id in w.trails ==> Expired !in w.trails[id]
    ensures w.procs[p].CompareAndSet? && w.procs[p].req == ToExpired(id)
  {
    if IsTransiting(w.procs[p]) {
      TransitionWrites(w, p);
    } else {
      OtherWrites(c, w, p, now, horizon);
      if id !in w.trails { OtherTrails(c, w, p, now, horizon, id); }
    }
  }

  lemma StepDue(c: Chain, s: seq<Turn>, t: Turn, w: World)
    requires w == Run(c, INIT, s) && Inv(w) && AllDue(c, s, w)
    ensures AllDue(c, s + [t], Step(c, w, t))
  {
    var w' := Step(c, w, t);
    forall q | 0 <= q < |w'.procs| ensures PcDue(c, s + [t], q, w'.procs[q]) {
      if t.Go? && t.proc < |w.procs| {
        OnlyOneAttempts(c, w, t.proc, t.now, t.horizon, t.fault);
      }
      if t.Go? && q == t.proc < |w.procs| {
        OwnDue(c, s, t, w);
      } else if q < |w.procs| && Expiring(w.procs[q]) {
        assert PcDue(c, s, q, w.procs[q]);
        SeenLater(c, s, t, q, RequestOf(w.procs[q]).value.0.id);
      }
    }
    forall id | id in w'.trails && Expired in w'.trails[id] ensures EverDue(c, s + [t], id) {
      ExpiredStaysDue(c, s, t, w, id);
    }
  }

  lemma ExpiredStaysDue(c: Chain, s: seq<Turn>, t: Turn, w: World, id: nat)
    requires w == Run(c, INIT, s) && Inv(w) && AllDue(c, s, w)
    requires id in Step(c, w, t).trails && Expired in Step(c, w, t).trails[id]
    ensures EverDue(c, s + [t], id)
  {
    if id in w.trails && Expired in w.trails[id] {
      var q: nat :| SeenDue(c, s, q, id);
      SeenLater(c, s, t, q, id);
    } else {
      ExpiredComesFrom(c, w, t, id);
      SwapIsDue(c, s, t, w, id);
    }
  }

  lemma SwapIsDue(c: Chain, s: seq<Turn>, t: Turn, w: World, id: nat)
    requires AllDue(c, s, w) && t.Go? && t.proc < |w.procs| && w.procs[t.proc].CompareAndSet? && w.procs[t.proc].req == ToExpired(id)
    ensures EverDue(c, s + [t], id)
  {
    assert PcDue(c, s, t.proc, w.procs[t.proc]);
    SeenLater(c, s, t, t.proc, id);
  }

  lemma {:induction false} RunDue(c: Chain, schedule: seq<Turn>)
    ensures Inv(Run(c, INIT, schedule)) && AllDue(c, schedule, Run(c, INIT, schedule))
    decreases |schedule|
  {
    InitOk();
    RunKeeps(c, INIT, schedule);
    if schedule != [] {
      var n := |schedule| - 1;
      var s, t := schedule[..n], schedule[n];
      assert schedule == s + [t];
      RunDue(c, s);
      RunOneMore(c, s, t);
      StepDue(c, s, t, Run(c, INIT, s));
    }
  }

  /**
   * In every run a payment that was ever expired had a turn in which a worker saw the clock past its expiry, or found it
   * paid, exactly as asked, but after its expiry.
   */
  lemma ExpiredWasDue(c: Chain, schedule: seq<Turn>, id: nat)
    requires var w := Run(c, INIT, schedule); id in w.trails && Expired in w.trails[id]
    ensures exists k, q :: DueAt(c, schedule, k, q, id)
  {
    RunDue(c, schedule);
    var q: nat :| SeenDue(c, schedule, q, id);
    var k: nat :| DueAt(c, schedule, k, q, id);
  }
}
