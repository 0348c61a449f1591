/** What every turn of every worker keeps. */
module PaymentInvariant {
  import opened Wrappers
  import opened Lifecycle
  import opened PaymentMachine

  // ---------- the store ----------

  /** Each lifecycle column is set exactly when its status was reached. */
  ghost predicate FieldsFit(p: Payment, trail: seq<Status>) {
    && (p.transactionHash.Some? <==> Confirmed in trail)
    && (p.paidAt.Some? <==> Confirmed in trail)
    && (p.completedAt.Some? <==> p.status == Completed)
    && (p.canceledAt.Some? <==> p.status == Canceled)
    && (p.failureCode.Some? <==> p.status == Failed)
  }

  ghost predicate RowOk(w: World, id: nat)
    requires id in w.payments && id in w.trails
  {
    var p, trail := w.payments[id], w.trails[id];
    && p.id == id && p.linkId in w.links
    && IsPath(trail) && trail[|trail| - 1] == p.status
    && FieldsFit(p, trail)
  }

  ghost predicate RowsOk(w: World) {
    && w.trails.Keys == w.payments.Keys
    && forall id | id in w.payments :: RowOk(w, id)
  }

  /** No two payments share a transaction hash, and no two share a checkout link. */
  ghost predicate Unique(w: World) {
    forall i, j | i in w.payments && j in w.payments && i != j ::
      && w.payments[i].linkId != w.payments[j].linkId
      && (w.payments[i].transactionHash.Some? ==> w.payments[i].transactionHash != w.payments[j].transactionHash)
  }

  ghost predicate LinkOk(w: World, l: nat)
    requires l in w.links
  {
    w.links[l].Some? ==> exists id :: id in w.payments && w.payments[id].linkId == l && w.payments[id].transactionHash == w.links[l]
  }

  ghost predicate LinksOk(w: World) {
    forall l | l in w.links :: LinkOk(w, l)
  }

  // ---------- the processes ----------

  /** A row read earlier: possibly stale, but of this payment, and right about any hash it shows. */
  ghost predicate CopyOk(w: World, row: Payment) {
    && row.id in w.payments && row.id in w.trails && row.SameIdentity(w.payments[row.id])
    && row.status in w.trails[row.id]
    && (row.transactionHash.Some? ==> row.SameAttribution(w.payments[row.id]))
  }

  /** The request's goal was held, and the row shows that status or a later one. */
  ghost predicate Reached(w: World, req: Request, row: Payment) {
    row.id == req.id && CopyOk(w, row) && HeldThen(w.trails[req.id], req.Goal(), row.status)
  }

  /** The row a process still holds from an earlier read. */
  function CopyHeld(pc: Pc): Option<Payment> {
    match pc
    case EmitCreated(row) => Some(row)
    case PollRow(row) => Some(row)
    case ListHorizon(row) => Some(row)
    case LoadHashes(row, _) => Some(row)
    case GetTransaction(row) => Some(row)
    case CompareAndSet(_, _, current) => Some(current)
    case LostReload(_, _, current) => Some(current)
    case _ => None
  }

  /** The request and the row of a transition that has found its goal reached. */
  function Reaching(pc: Pc): Option<(Request, Payment)> {
    match pc
    case EmitEvent(req, _, updated) => Some((req, updated))
    case SyncLink(req, _, row) => Some((req, row))
    case Returned(req, _, row) => Some((req, row))
    case _ => None
  }

  ghost predicate ProcOk(w: World, pc: Pc) {
    && (CopyHeld(pc).Some? ==> CopyOk(w, CopyHeld(pc).value))
    && (Reaching(pc).Some? ==> Reached(w, Reaching(pc).value.0, Reaching(pc).value.1))
    && (pc.InsertPayment? ==> pc.draft.linkId in w.links)
    && (pc.EmitCreated? ==> pc.row.status == Created)
    && (pc.CompareAndSet? || pc.LostReload? ==> pc.current.id == pc.req.id)
  }

  ghost predicate ProcsOk(w: World) {
    forall p | 0 <= p < |w.procs| :: ProcOk(w, w.procs[p])
  }

  // ---------- the event log ----------

  ghost predicate EventOk(w: World, e: Event) {
    && e.paymentId == e.snapshot.id && CopyOk(w, e.snapshot)
    && HeldThen(w.trails[e.paymentId], e.kind, e.snapshot.status)
    && (e.kind == Created ==> e.snapshot.status == Created)
  }

  ghost predicate EventsOk(w: World) {
    && (forall i | 0 <= i < |w.events| :: EventOk(w, w.events[i]))
    && (forall i, j | 0 <= i < j < |w.events| :: (w.events[i].paymentId, w.events[i].kind) != (w.events[j].paymentId, w.events[j].kind))
  }

  ghost predicate HeldBy(w: World, key: (nat, Status)) {
    key.0 in w.payments && key.0 in w.trails && key.1 in w.trails[key.0]
  }

  /**
   * A debt is for a status really held, not logged yet, and owed by one process only. A process that threw keeps
   * its debt for ever: that event is never appended.
   */
  ghost predicate DebtsOk(w: World) {
    && (forall p | 0 <= p < |w.procs| && Owes(w.procs[p]).Some? ::
          var key := Owes(w.procs[p]).value; HeldBy(w, key) && !Logged(w, key.0, key.1))
    && (forall p, q | 0 <= p < q < |w.procs| && Owes(w.procs[p]).Some? :: Owes(w.procs[p]) != Owes(w.procs[q]))
  }

  ghost predicate Owed(w: World, id: nat, s: Status) {
    exists p :: 0 <= p < |w.procs| && Owes(w.procs[p]) == Some((id, s))
  }

  /** Every status a payment has held is logged, or some process still owes its event. */
  ghost predicate Accounted(w: World) {
    forall id: nat, s | HeldBy(w, (id, s)) :: Logged(w, id, s) || Owed(w, id, s)
  }

  ghost predicate Inv(w: World) {
    RowsOk(w) && Unique(w) && LinksOk(w) && ProcsOk(w) && EventsOk(w) && DebtsOk(w) && Accounted(w)
  }

  // ---------- how the store evolves ----------

  /** Rows stay, keep their identity and any attribution, and only lengthen their trail. */
  ghost predicate Evolves(w: World, w': World) {
    && w.links.Keys <= w'.links.Keys
    && forall id | id in w.payments && id in w.trails ::
      && id in w'.payments && id in w'.trails
      && w.payments[id].SameIdentity(w'.payments[id])
      && w.trails[id] <= w'.trails[id]
      && (w.payments[id].transactionHash.Some? ==> w.payments[id].SameAttribution(w'.payments[id]))
  }

  lemma CopyStays(w: World, w': World, row: Payment)
    requires Evolves(w, w') && CopyOk(w, row)
    ensures CopyOk(w', row)
  {
    var i :| 0 <= i < |w.trails[row.id]| && w.trails[row.id][i] == row.status;
    assert w'.trails[row.id][i] == row.status;
  }

  lemma HeldStays(trail: seq<Status>, trail': seq<Status>, s: Status, t: Status)
    requires trail <= trail' && HeldThen(trail, s, t)
    ensures HeldThen(trail', s, t)
  {
    var i, j :| 0 <= i <= j < |trail| && trail[i] == s && trail[j] == t;
    assert trail'[i] == s && trail'[j] == t;
  }

  lemma KeyStays(w: World, w': World, key: (nat, Status))
    requires Evolves(w, w') && HeldBy(w, key)
    ensures HeldBy(w', key)
  {
    var i :| 0 <= i < |w.trails[key.0]| && w.trails[key.0][i] == key.1;
    assert w'.trails[key.0][i] == key.1;
  }

  lemma ReachedStays(w: World, w': World, req: Request, row: Payment)
    requires Evolves(w, w') && Reached(w, req, row)
    ensures Reached(w', req, row)
  {
    CopyStays(w, w', row);
    HeldStays(w.trails[req.id], w'.trails[req.id], req.Goal(), row.status);
  }

  lemma ProcStays(w: World, w': World, pc: Pc)
    requires RowsOk(w) && Evolves(w, w') && ProcOk(w, pc)
    ensures ProcOk(w', pc)
  {
    if CopyHeld(pc).Some? {
      CopyStays(w, w', CopyHeld(pc).value);
    }
    if Reaching(pc).Some? {
      ReachedStays(w, w', Reaching(pc).value.0, Reaching(pc).value.1);
    }
  }

  /** Process `p` may move on to `pc` if `pc` is fine in the new store; the others stay fine. */
  lemma ProcsStay(w: World, w': World, p: nat, pc: Pc)
    requires RowsOk(w) && ProcsOk(w) && Evolves(w, w') && p < |w.procs|
    requires w'.procs == w.procs[p := pc] && ProcOk(w', pc)
    ensures ProcsOk(w')
  {
    forall q | 0 <= q < |w'.procs| ensures ProcOk(w', w'.procs[q]) {
      if q != p {
        ProcStays(w, w', w.procs[q]);
      }
    }
  }

  /** The logged events survive any evolution that leaves the log alone. */
  lemma EventsStay(w: World, w': World)
    requires Evolves(w, w') && EventsOk(w) && w'.events == w.events
    ensures EventsOk(w')
  {
    forall i | 0 <= i < |w'.events| ensures EventOk(w', w'.events[i]) {
      var e := w.events[i];
      CopyStays(w, w', e.snapshot);
      HeldStays(w.trails[e.paymentId], w'.trails[e.paymentId], e.kind, e.snapshot.status);
    }
  }

  // ---------- the debts ----------

  /** A move that logs nothing and holds no new status leaves every debt as it was. */
  lemma DebtsUnchanged(w: World, w': World, p: nat, pc: Pc)
    requires p < |w.procs| && w'.procs == w.procs[p := pc] && Owes(pc) == Owes(w.procs[p])
    requires w'.payments == w.payments && w'.trails == w.trails && w'.events == w.events
    requires DebtsOk(w) && Accounted(w)
    ensures DebtsOk(w') && Accounted(w')
  {
    forall id: nat, s | HeldBy(w', (id, s)) ensures Logged(w', id, s) || Owed(w', id, s) {
      assert HeldBy(w, (id, s));
      if !Logged(w, id, s) {
        var q :| 0 <= q < |w.procs| && Owes(w.procs[q]) == Some((id, s));
        assert Owes(w'.procs[q]) == Some((id, s));
      }
    }
  }

  /** Reaching a new status creates exactly one debt, owed by the process that made the change. */
  lemma DebtIncurred(w: World, w': World, p: nat, pc: Pc, key: (nat, Status))
    requires Evolves(w, w') && w'.events == w.events
    requires p < |w.procs| && w'.procs == w.procs[p := pc] && Owes(w.procs[p]).None? && Owes(pc) == Some(key)
    requires !HeldBy(w, key) && (forall k :: HeldBy(w', k) <==> HeldBy(w, k) || k == key)
    requires EventsOk(w) && DebtsOk(w) && Accounted(w)
    ensures DebtsOk(w') && Accounted(w')
  {
    assert !Logged(w', key.0, key.1) by {
      forall i | 0 <= i < |w.events| && w.events[i].paymentId == key.0 ensures w.events[i].kind != key.1 {
        assert EventOk(w, w.events[i]);
      }
    }
    forall id: nat, s | HeldBy(w', (id, s)) ensures Logged(w', id, s) || Owed(w', id, s) {
      if (id, s) == key {
        assert Owes(w'.procs[p]) == Some((id, s));
      } else if !Logged(w, id, s) {
        var q :| 0 <= q < |w.procs| && Owes(w.procs[q]) == Some((id, s));
        assert Owes(w'.procs[q]) == Some((id, s));
      }
    }
  }

  /** Appending the owed event settles that debt and no other. */
  lemma DebtSettled(w: World, w': World, p: nat, pc: Pc, e: Event)
    requires w'.payments == w.payments && w'.trails == w.trails && w'.events == w.events + [e]
    requires p < |w.procs| && w'.procs == w.procs[p := pc] && Owes(pc).None?
    requires Owes(w.procs[p]) == Some((e.paymentId, e.kind))
    requires DebtsOk(w) && Accounted(w)
    ensures DebtsOk(w') && Accounted(w')
  {
    assert forall id: nat, s :: Logged(w', id, s) <==> Logged(w, id, s) || (id, s) == (e.paymentId, e.kind) by {
      forall id: nat, s ensures Logged(w', id, s) <==> Logged(w, id, s) || (id, s) == (e.paymentId, e.kind) {
        LoggedAppend(w, w', e, id, s);
      }
    }
    forall id: nat, s | HeldBy(w', (id, s)) ensures Logged(w', id, s) || Owed(w', id, s) {
      assert HeldBy(w, (id, s));
      if !Logged(w', id, s) {
        var q :| 0 <= q < |w.procs| && Owes(w.procs[q]) == Some((id, s));
        assert Owes(w'.procs[q]) == Some((id, s));
      }
    }
  }

  lemma LoggedAppend(w: World, w': World, e: Event, id: nat, s: Status)
    requires w'.events == w.events + [e]
    ensures Logged(w', id, s) <==> Logged(w, id, s) || (id, s) == (e.paymentId, e.kind)
  {
    if Logged(w, id, s) {
      var i :| 0 <= i < |w.events| && w.events[i].paymentId == id && w.events[i].kind == s;
      assert w'.events[i] == w.events[i];
    }
    assert w'.events[|w.events|] == e;
  }
}
