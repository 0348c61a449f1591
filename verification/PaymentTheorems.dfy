/** What the payment workers guarantee over every schedule. */
module PaymentTheorems {
  import opened Wrappers
  import opened Verifier
  import opened Lifecycle
  import opened PaymentMachine
  import opened PaymentInvariant
  import opened PaymentSafety

  // ---------- attribution ----------

  /** The record is on chain and pays for exactly this row. */
  ghost predicate Backs(c: Chain, r: HorizonRecord, p: Payment) {
    && r in c.ledger && Settles(r, p.terms, c.issuers)
    && p.transactionHash == Some(r.transactionHash) && p.payerAddress == Some(r.from) && p.assetIssuer == r.assetIssuer
  }

  ghost predicate RowAttributed(c: Chain, p: Payment) {
    p.transactionHash.Some? ==> exists r :: Backs(c, r, p)
  }

  ghost predicate Justifies(c: Chain, r: HorizonRecord, terms: Target, tx: TransactionData) {
    r in c.ledger && Settles(r, terms, c.issuers) && tx == TransactionData(r.transactionHash, r.from, r.assetIssuer)
  }

  /** A confirmation is only ever requested for a transaction on chain that settles the payment. */
  ghost predicate ProcJustified(c: Chain, w: World, pc: Pc) {
    && (pc.LoadHashes? ==> forall r | r in pc.records :: r in c.ledger)
    && (pc.Read? || pc.CompareAndSet? || pc.LostReload? ==> pc.req.ToConfirmed? ==>
          pc.req.id in w.payments && exists r :: Justifies(c, r, w.payments[pc.req.id].terms, pc.req.tx))
  }

  ghost predicate Attributed(c: Chain, w: World) {
    && (forall id | id in w.payments :: RowAttributed(c, w.payments[id]))
    && (forall p | 0 <= p < |w.procs| :: ProcJustified(c, w, w.procs[p]))
  }

  lemma RowAttributionStays(c: Chain, p: Payment, p': Payment)
    requires RowAttributed(c, p) && p.SameIdentity(p') && p.SameAttribution(p')
    ensures RowAttributed(c, p')
  {
    if p.transactionHash.Some? {
      var r :| Backs(c, r, p);
      assert Backs(c, r, p');
    }
  }

  lemma JustificationStays(c: Chain, w: World, w': World, pc: Pc)
    requires RowsOk(w) && Evolves(w, w') && ProcJustified(c, w, pc)
    ensures ProcJustified(c, w', pc)
  {
    if (pc.Read? || pc.CompareAndSet? || pc.LostReload?) && pc.req.ToConfirmed? {
      var r :| Justifies(c, r, w.payments[pc.req.id].terms, pc.req.tx);
      assert Justifies(c, r, w'.payments[pc.req.id].terms, pc.req.tx);
    }
  }

  /** Whatever the verifier answers, a confirmation it leads to is justified by a record on chain. */
  lemma VerdictJustified(c: Chain, w: World, row: Payment, verdict: VerifyResult, now: int)
    requires CopyOk(w, row)
    requires verdict.Match? ==> verdict.payment in c.ledger && Settles(verdict.payment, row.terms, c.issuers)
    ensures ProcJustified(c, w, AfterVerdict(row, verdict, now))
  {
    if verdict.Match? {
      var r := verdict.payment;
      assert Justifies(c, r, w.payments[row.id].terms, TransactionData(r.transactionHash, r.from, r.assetIssuer));
    }
  }

  lemma PrepareJustified(c: Chain, w: World, pc: Pc, now: int, horizon: Horizon)
    requires ProcOk(w, pc) && ProcJustified(c, w, pc) && !IsTransiting(pc)
    ensures ProcJustified(c, w, Prepare(c, w, pc, now, horizon))
  {
    if pc.LoadHashes? {
      var known := ForeignHashes(w, pc.records, pc.row.id);
      PossibleAnswers(pc.row.terms, pc.records, known, c.issuers);
      VerdictJustified(c, w, pc.row, FirstMatch(pc.row.terms, pc.records, known, c.issuers), now);
    }
  }

  /** The program counter a move leads to is justified in the store it leaves. */
  lemma MoveJustified(c: Chain, w: World, p: nat, now: int, horizon: Horizon, w': World)
    requires RowsOk(w) && p < |w.procs| && ProcOk(w, w.procs[p]) && ProcJustified(c, w, w.procs[p])
    requires w' == Move(c, w, p, now, horizon) && Evolves(w, w') && p < |w'.procs|
    ensures ProcJustified(c, w', w'.procs[p])
  {
    var pc := w.procs[p];
    if IsTransiting(pc) {
      TransitingJustified(c, w, p, w');
    } else if IsCreating(pc) || pc.SyncLink? || IsOver(pc) {
      NeverConfirming(w, p);
    } else {
      PrepareJustified(c, w, pc, now, horizon);
      JustificationStays(c, w, w', w'.procs[p]);
    }
  }

  lemma NeverConfirming(w: World, p: nat)
    requires p < |w.procs|
    ensures IsCreating(w.procs[p]) ==> !Confirming(Creation(w, p).procs[p])
    ensures w.procs[p].SyncLink? ==> !Confirming(Sync(w, p).procs[p])
    ensures IsOver(w.procs[p]) ==> !Confirming(w.procs[p])
  {
  }

  /** The program counters that need a justification. */
  predicate Confirming(pc: Pc) {
    pc.LoadHashes? || ((pc.Read? || pc.CompareAndSet? || pc.LostReload?) && pc.req.ToConfirmed?)
  }

  lemma TransitingJustified(c: Chain, w: World, p: nat, w': World)
    requires RowsOk(w) && p < |w.procs| && IsTransiting(w.procs[p]) && ProcJustified(c, w, w.procs[p])
    requires w' == Transition(w, p, w.procs[p]) && Evolves(w, w') && p < |w'.procs|
    ensures ProcJustified(c, w', w'.procs[p])
  {
    JustificationStays(c, w, w', w.procs[p]);
    SameRequest(w, p);
  }

  /** A transition never changes what it asks for. */
  lemma SameRequest(w: World, p: nat)
    requires p < |w.procs| && IsTransiting(w.procs[p])
    ensures var pc' := Transition(w, p, w.procs[p]).procs[p];
      Confirming(pc') ==> Confirming(w.procs[p]) && !pc'.LoadHashes? && pc'.req == w.procs[p].req
  {
  }

  /** A write that sets a hash sets the one its justifying record has. */
  lemma RowsStayAttributed(c: Chain, w: World, p: nat, now: int, horizon: Horizon, w': World)
    requires Inv(w) && p < |w.procs| && Attributed(c, w)
    requires w' == Move(c, w, p, now, horizon) && Evolves(w, w')
    ensures forall id | id in w'.payments :: RowAttributed(c, w'.payments[id])
  {
    forall id | id in w'.payments ensures RowAttributed(c, w'.payments[id]) {
      if id in w.payments {
        if w.payments[id].SameAttribution(w'.payments[id]) {
          RowAttributionStays(c, w.payments[id], w'.payments[id]);
        } else {
          assert ProcJustified(c, w, w.procs[p]);
          ConfirmedRow(c, w, p, now, horizon, id);
        }
      } else {
        NewRow(c, w, p, now, horizon, id);
      }
    }
  }

  lemma NewRow(c: Chain, w: World, p: nat, now: int, horizon: Horizon, id: nat)
    requires p < |w.procs| && id !in w.payments && id in Move(c, w, p, now, horizon).payments
    ensures w.procs[p].InsertPayment? && Move(c, w, p, now, horizon).payments[id] == NewPayment(w.procs[p].draft)
  {
  }

  /** The attribution columns change in one way only: the winning compare-and-set of a confirmation. */
  lemma AttributionChanges(c: Chain, w: World, p: nat, now: int, horizon: Horizon, id: nat)
    requires Inv(w) && p < |w.procs| && id in w.payments
    requires var w' := Move(c, w, p, now, horizon); id in w'.payments && !w.payments[id].SameAttribution(w'.payments[id])
    ensures w.procs[p].CompareAndSet? && w.procs[p].req.ToConfirmed? && w.procs[p].req.id == id && CasMatches(w, w.procs[p].req)
    ensures w.payments[id].transactionHash.None?
    ensures Move(c, w, p, now, horizon).payments[id] == w.procs[p].req.Apply(w.payments[id])
  {
    var pc := w.procs[p];
    if IsTransiting(pc) {
      TransitionRows(w, p);
      GoalIsNew(w, pc.req);
    } else {
      OtherRows(c, w, p, now, horizon);
    }
  }

  /** Only a compare-and-set rewrites an existing payment row, and it rewrites the one it names. */
  lemma TransitionRows(w: World, p: nat)
    requires p < |w.procs| && IsTransiting(w.procs[p])
    ensures var pc, w' := w.procs[p], Transition(w, p, w.procs[p]);
      w'.payments == if pc.CompareAndSet? && CasMatches(w, pc.req) && !CasConflicts(w, pc.req)
                     then w.payments[pc.req.id := pc.req.Apply(w.payments[pc.req.id])] else w.payments
  {
  }

  lemma OtherRows(c: Chain, w: World, p: nat, now: int, horizon: Horizon)
    requires p < |w.procs| && !IsTransiting(w.procs[p])
    ensures forall id | id in w.payments ::
      id in Move(c, w, p, now, horizon).payments && Move(c, w, p, now, horizon).payments[id] == w.payments[id]
  {
  }

  lemma ConfirmedRow(c: Chain, w: World, p: nat, now: int, horizon: Horizon, id: nat)
    requires Inv(w) && p < |w.procs| && id in w.payments && ProcJustified(c, w, w.procs[p])
    requires var w' := Move(c, w, p, now, horizon); id in w'.payments && !w.payments[id].SameAttribution(w'.payments[id])
    ensures RowAttributed(c, Move(c, w, p, now, horizon).payments[id])
  {
    AttributionChanges(c, w, p, now, horizon, id);
    var req := w.procs[p].req;
    var r :| Justifies(c, r, w.payments[id].terms, req.tx);
    assert Backs(c, r, req.Apply(w.payments[id]));
  }

  lemma AttributionKept(c: Chain, w: World, t: Turn)
    requires Inv(w) && Attributed(c, w)
    ensures Attributed(c, Step(c, w, t))
  {
    var w' := Step(c, w, t);
    StepKeeps(c, w, t);
    if t.Go? && t.proc < |w.procs| {
      MoveAttributed(c, w, t.proc, t.now, t.horizon);
      if t.fault != NoFault && CanFail(w.procs[t.proc]) {
        ThrowAttributed(c, if t.fault == Before then w else Move(c, w, t.proc, t.now, t.horizon), t.proc);
      }
    } else {
      forall q | 0 <= q < |w'.procs| ensures ProcJustified(c, w', w'.procs[q]) {
        if q < |w.procs| {
          JustificationStays(c, w, w', w.procs[q]);
        }
      }
    }
  }

  lemma MoveAttributed(c: Chain, w: World, p: nat, now: int, horizon: Horizon)
    requires Inv(w) && Attributed(c, w) && p < |w.procs|
    ensures Attributed(c, Move(c, w, p, now, horizon))
  {
    var w' := Move(c, w, p, now, horizon);
    MoveKeeps(c, w, p, now, horizon);
    RowsStayAttributed(c, w, p, now, horizon, w');
    OnlyOneMoves(c, w, p, now, horizon);
    MoveJustified(c, w, p, now, horizon, w');
    forall q | 0 <= q < |w'.procs| && q != p ensures ProcJustified(c, w', w'.procs[q]) {
      JustificationStays(c, w, w', w.procs[q]);
    }
  }

  lemma ThrowAttributed(c: Chain, w: World, p: nat)
    requires Attributed(c, w) && p < |w.procs|
    ensures Attributed(c, Thrown(w, p))
  {
    var w' := Thrown(w, p);
    forall q | 0 <= q < |w'.procs| ensures ProcJustified(c, w', w'.procs[q]) {
      assert ProcJustified(c, w, w.procs[q]);
    }
  }

  lemma OnlyOneMoves(c: Chain, w: World, p: nat, now: int, horizon: Horizon)
    requires p < |w.procs|
    ensures var w' := Move(c, w, p, now, horizon);
      |w'.procs| == |w.procs| && forall q | 0 <= q < |w.procs| && q != p :: w'.procs[q] == w.procs[q]
  {
    if IsTransiting(w.procs[p]) {
      OneTransits(w, p);
    }
  }

  /** A turn moves at most the process it names. */
  lemma OnlyOneAttempts(c: Chain, w: World, p: nat, now: int, horizon: Horizon, fault: Fault)
    requires p < |w.procs|
    ensures var w' := Attempted(c, w, p, now, horizon, fault);
      |w'.procs| == |w.procs| && forall q | 0 <= q < |w.procs| && q != p :: w'.procs[q] == w.procs[q]
  {
    OnlyOneMoves(c, w, p, now, horizon);
  }

  lemma OneTransits(w: World, p: nat)
    requires p < |w.procs|
    ensures var w' := Transition(w, p, w.procs[p]);
      |w'.procs| == |w.procs| && forall q | 0 <= q < |w.procs| && q != p :: w'.procs[q] == w.procs[q]
  {
  }

  lemma {:induction false} RunAttributed(c: Chain, w: World, schedule: seq<Turn>)
    requires Inv(w) && Attributed(c, w)
    ensures Attributed(c, Run(c, w, schedule))
    decreases |schedule|
  {
    if schedule != [] {
      StepKeeps(c, w, schedule[0]);
      AttributionKept(c, w, schedule[0]);
      RunAttributed(c, Step(c, w, schedule[0]), schedule[1..]);
    }
  }

  /**
   * Attribution safety: under any interleaving a recorded hash belongs to a successful on-chain
   * payment of exactly the asked terms, and no transaction pays two payments.
   */
  lemma {:induction false} AttributionSafety(c: Chain, schedule: seq<Turn>)
    ensures var w := Run(c, INIT, schedule);
      && (forall id | id in w.payments && w.payments[id].transactionHash.Some? ::
            exists r :: r in c.ledger && r.transactionHash == w.payments[id].transactionHash.value
                        && Settles(r, w.payments[id].terms, c.issuers))
      && (forall i, j | i in w.payments && j in w.payments && i != j && w.payments[i].transactionHash.Some? ::
            w.payments[i].transactionHash != w.payments[j].transactionHash)
  {
    var w := Run(c, INIT, schedule);
    InitOk();
    RunKeeps(c, INIT, schedule);
    RunAttributed(c, INIT, schedule);
    forall id | id in w.payments && w.payments[id].transactionHash.Some?
      ensures exists r :: r in c.ledger && r.transactionHash == w.payments[id].transactionHash.value
                          && Settles(r, w.payments[id].terms, c.issuers)
    {
      assert RowAttributed(c, w.payments[id]);
      var r :| Backs(c, r, w.payments[id]);
      assert r in c.ledger;
    }
  }
}
