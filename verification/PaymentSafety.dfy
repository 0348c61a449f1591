/** Every turn keeps the invariant, so every reachable store has it. */
module PaymentSafety {
  import opened Wrappers
  import opened Lifecycle
  import opened PaymentMachine
  import opened PaymentInvariant

  // ---------- one lemma for each kind of move ----------

  /** A move that only changes the process's own state. */
  lemma LocalMove(w: World, p: nat, pc: Pc)
    requires Inv(w) && p < |w.procs| && ProcOk(w, pc) && Owes(pc) == Owes(w.procs[p])
    ensures Inv(Goto(w, p, pc)) && Evolves(w, Goto(w, p, pc))
  {
    var w' := Goto(w, p, pc);
    RowsFrame(w, w');
    ProcsStay(w, w', p, pc);
    EventsStay(w, w');
    DebtsUnchanged(w, w', p, pc);
    LinksFrame(w, w');
  }

  lemma RowsFrame(w: World, w': World)
    requires RowsOk(w) && w'.payments == w.payments && w'.trails == w.trails && w.links.Keys <= w'.links.Keys
    ensures RowsOk(w') && Evolves(w, w')
  {
    forall id | id in w'.payments ensures RowOk(w', id) {
      assert RowOk(w, id);
    }
  }

  lemma LinksFrame(w: World, w': World)
    requires LinksOk(w) && w'.payments == w.payments && w'.links == w.links
    ensures LinksOk(w')
  {
    forall l | l in w'.links ensures LinkOk(w', l) {
      assert LinkOk(w, l);
    }
  }

  lemma CreateLinkMove(w: World, p: nat, d: Draft)
    requires Inv(w) && p < |w.procs| && w.procs[p] == CreateLink(d) && d.linkId !in w.links
    ensures var w' := Goto(w.(links := w.links[d.linkId := None]), p, InsertPayment(d)); Inv(w') && Evolves(w, w')
  {
    var w' := Goto(w.(links := w.links[d.linkId := None]), p, InsertPayment(d));
    RowsFrame(w, w');
    ProcsStay(w, w', p, InsertPayment(d));
    EventsStay(w, w');
    DebtsUnchanged(w, w', p, InsertPayment(d));
    forall l | l in w'.links ensures LinkOk(w', l) {
      if l != d.linkId {
        assert LinkOk(w, l);
      }
    }
  }

  /** The sync writes a hash its own payment really holds. */
  lemma SyncLinkMove(w: World, p: nat, req: Request, job: Job, row: Payment)
    requires Inv(w) && p < |w.procs| && w.procs[p] == SyncLink(req, job, row)
    requires row.transactionHash.Some? && row.linkId in w.links
    ensures var w' := Goto(w.(links := w.links[row.linkId := row.transactionHash]), p, Returned(req, job, row));
      Inv(w') && Evolves(w, w')
  {
    var w' := Goto(w.(links := w.links[row.linkId := row.transactionHash]), p, Returned(req, job, row));
    SyncReached(w, p, req, job, row);
    SyncedStore(w, w', row);
    SyncedProcs(w, w', p, req, job, row);
    DebtsUnchanged(w, w', p, Returned(req, job, row));
  }

  lemma SyncReached(w: World, p: nat, req: Request, job: Job, row: Payment)
    requires ProcsOk(w) && p < |w.procs| && w.procs[p] == SyncLink(req, job, row)
    ensures Reached(w, req, row)
  {
    assert ProcOk(w, w.procs[p]);
  }

  lemma SyncedStore(w: World, w': World, row: Payment)
    requires RowsOk(w) && Unique(w) && LinksOk(w) && EventsOk(w) && CopyOk(w, row) && row.transactionHash.Some? &&
      row.linkId in w.links
    requires w'.payments == w.payments && w'.trails == w.trails && w'.events == w.events
    requires w'.links == w.links[row.linkId := row.transactionHash]
    ensures RowsOk(w') && Unique(w') && LinksOk(w') && EventsOk(w') && Evolves(w, w')
  {
    RowsFrame(w, w');
    EventsStay(w, w');
    SyncedLinks(w, w', row);
  }

  lemma SyncedProcs(w: World, w': World, p: nat, req: Request, job: Job, row: Payment)
    requires RowsOk(w) && ProcsOk(w) && Evolves(w, w') && p < |w.procs| && Reached(w, req, row)
    requires w'.procs == w.procs[p := Returned(req, job, row)]
    ensures ProcsOk(w')
  {
    ReachedStays(w, w', req, row);
    ProcsStay(w, w', p, Returned(req, job, row));
  }

  lemma SyncedLinks(w: World, w': World, row: Payment)
    requires LinksOk(w) && CopyOk(w, row) && row.transactionHash.Some? && row.linkId in w.links
    requires w'.payments == w.payments && w'.links == w.links[row.linkId := row.transactionHash]
    ensures LinksOk(w')
  {
    forall l | l in w'.links ensures LinkOk(w', l) {
      if l == row.linkId {
        assert w'.payments[row.id].linkId == l && w'.payments[row.id].transactionHash == w'.links[l];
      } else {
        assert LinkOk(w, l);
      }
    }
  }

  /** Appending the owed event, with a snapshot that shows the owed status or a later one. */
  lemma EmitMove(w: World, p: nat, e: Event, pc: Pc)
    requires Inv(w) && p < |w.procs| && Owes(w.procs[p]) == Some((e.paymentId, e.kind)) && EventOk(w, e)
    requires ProcOk(w, pc) && Owes(pc).None?
    ensures var w' := Goto(w.(events := w.events + [e]), p, pc); Inv(w') && Evolves(w, w')
  {
    var w' := Goto(w.(events := w.events + [e]), p, pc);
    RowsFrame(w, w');
    LinksFrame(w, w');
    ProcStays(w, w', pc);
    ProcsStay(w, w', p, pc);
    DebtSettled(w, w', p, pc, e);
    EventAppended(w, w', e);
  }

  lemma EventAppended(w: World, w': World, e: Event)
    requires EventsOk(w) && EventOk(w, e) && !Logged(w, e.paymentId, e.kind)
    requires w'.payments == w.payments && w'.trails == w.trails && w'.events == w.events + [e]
    ensures EventsOk(w')
  {
    forall i | 0 <= i < |w'.events| ensures EventOk(w', w'.events[i]) {
      assert EventOk(w, w'.events[i]);
    }
  }

  lemma InsertMove(w: World, p: nat, d: Draft)
    requires Inv(w) && p < |w.procs| && w.procs[p] == InsertPayment(d) && d.id !in w.payments && !LinkTaken(w, d.linkId)
    ensures var w' := Goto(Insert(w, d), p, EmitCreated(NewPayment(d))); Inv(w') && Evolves(w, w')
  {
    var pc := EmitCreated(NewPayment(d));
    var w' := Goto(Insert(w, d), p, pc);
    assert ProcOk(w, w.procs[p]);
    InsertedRows(w, w', d);
    LinksStay(w, w');
    ProcsStay(w, w', p, pc);
    EventsStay(w, w');
    DebtIncurred(w, w', p, pc, (d.id, Created));
  }

  lemma InsertedRows(w: World, w': World, d: Draft)
    requires RowsOk(w) && Unique(w) && d.linkId in w.links && d.id !in w.payments && !LinkTaken(w, d.linkId)
    requires w'.payments == Insert(w, d).payments && w'.trails == Insert(w, d).trails && w'.links == w.links
    ensures RowsOk(w') && Unique(w') && Evolves(w, w') && CopyOk(w', NewPayment(d))
  {
    InsertedRow(w', d);
    forall id | id in w'.payments ensures RowOk(w', id) {
      if id != d.id {
        RowFrame(w, w', id);
      }
    }
    InsertedUnique(w, w', d);
  }

  lemma InsertedRow(w': World, d: Draft)
    requires d.id in w'.payments && d.id in w'.trails && w'.payments[d.id] == NewPayment(d) && w'.trails[d.id] == [Created]
    requires d.linkId in w'.links
    ensures RowOk(w', d.id) && CopyOk(w', NewPayment(d))
  {
  }

  lemma InsertedUnique(w: World, w': World, d: Draft)
    requires Unique(w) && d.id !in w.payments && !LinkTaken(w, d.linkId) && w'.payments == Insert(w, d).payments
    ensures Unique(w')
  {
  }

  lemma LinksStay(w: World, w': World)
    requires w.trails.Keys == w.payments.Keys && Evolves(w, w') && w'.links == w.links && LinksOk(w)
    ensures LinksOk(w')
  {
    forall l | l in w'.links ensures LinkOk(w', l) {
      LinkStays(w, w', l);
    }
  }

  lemma LinkStays(w: World, w': World, l: nat)
    requires w.trails.Keys == w.payments.Keys && Evolves(w, w') && w'.links == w.links && l in w.links && LinkOk(w, l)
    ensures LinkOk(w', l)
  {
    if w.links[l].Some? {
      var id :| id in w.payments && w.payments[id].linkId == l && w.payments[id].transactionHash == w.links[l];
      assert w'.payments[id].linkId == l && w'.payments[id].transactionHash == w'.links[l];
    }
  }

  // ---------- the winning compare-and-set ----------

  /** The goal of a matching request was never held before, and a confirmed row is not confirmed again. */
  lemma GoalIsNew(w: World, req: Request)
    requires RowsOk(w) && CasMatches(w, req)
    ensures req.Goal() !in w.trails[req.id] && IsPath(w.trails[req.id] + [req.Goal()])
    ensures req.ToConfirmed? ==> w.payments[req.id].transactionHash.None?
  {
    assert RowOk(w, req.id);
    var trail := w.trails[req.id];
    var longer := trail + [req.Goal()];
    assert IsPath(longer);
    PathsAreShort(longer);
    assert forall i | 0 <= i < |trail| :: longer[i] == trail[i] && longer[i] != longer[|trail|];
  }

  /** The written row has its fields right and, if it was confirmed, a record behind its hash. */
  lemma WrittenRow(w: World, w': World, req: Request)
    requires RowsOk(w) && CasMatches(w, req)
    requires w'.payments == Write(w, req).payments && w'.trails == Write(w, req).trails && w'.links == w.links
    ensures RowOk(w', req.id)
  {
    GoalIsNew(w, req);
    var p, p' := w.payments[req.id], w'.payments[req.id];
    var trail, trail' := w.trails[req.id], w'.trails[req.id];
    assert RowOk(w, req.id);
    WrittenFields(p, trail, req);
  }

  lemma WrittenFields(p: Payment, trail: seq<Status>, req: Request)
    requires p.status in AllowedFrom(req.Goal()) && FieldsFit(p, trail)
    ensures FieldsFit(req.Apply(p), trail + [req.Goal()])
  {
    assert Confirmed in trail + [req.Goal()] <==> Confirmed in trail || req.Goal() == Confirmed;
  }

  lemma CasMove(w: World, p: nat, req: Request, job: Job, current: Payment)
    requires Inv(w) && p < |w.procs| && w.procs[p] == CompareAndSet(req, job, current)
    requires CasMatches(w, req) && !CasConflicts(w, req)
    ensures var w' := Goto(Write(w, req), p, Reload(req, job, current)); Inv(w') && Evolves(w, w')
  {
    var pc := Reload(req, job, current);
    var w' := Goto(Write(w, req), p, pc);
    WrittenStore(w, w', req);
    ReloadingProcs(w, w', p, pc);
    WrittenDebt(w, w', p, req, job, current);
  }

  lemma ReloadingProcs(w: World, w': World, p: nat, pc: Pc)
    requires RowsOk(w) && ProcsOk(w) && Evolves(w, w') && p < |w.procs| && w'.procs == w.procs[p := pc] && pc.Reload?
    ensures ProcsOk(w')
  {
    ProcsStay(w, w', p, pc);
  }

  lemma WrittenStore(w: World, w': World, req: Request)
    requires RowsOk(w) && Unique(w) && LinksOk(w) && EventsOk(w) && CasMatches(w, req) && !CasConflicts(w, req)
    requires w'.payments == Write(w, req).payments && w'.trails == Write(w, req).trails
    requires w'.links == w.links && w'.events == w.events
    ensures RowsOk(w') && Unique(w') && LinksOk(w') && EventsOk(w') && Evolves(w, w')
  {
    WrittenUnique(w, w', req);
    WrittenRows(w, w', req);
    LinksStay(w, w');
    EventsStay(w, w');
  }

  lemma WrittenRows(w: World, w': World, req: Request)
    requires RowsOk(w) && CasMatches(w, req)
    requires w'.payments == Write(w, req).payments && w'.trails == Write(w, req).trails && w'.links == w.links
    ensures RowsOk(w') && Evolves(w, w')
  {
    WrittenEvolves(w, w', req);
    WrittenRow(w, w', req);
    forall id | id in w'.payments ensures RowOk(w', id) {
      if id != req.id {
        RowFrame(w, w', id);
      }
    }
  }

  lemma WrittenEvolves(w: World, w': World, req: Request)
    requires RowsOk(w) && CasMatches(w, req)
    requires w'.payments == Write(w, req).payments && w'.trails == Write(w, req).trails && w'.links == w.links
    ensures Evolves(w, w')
  {
    GoalIsNew(w, req);
  }

  lemma RowFrame(w: World, w': World, id: nat)
    requires id in w.payments && id in w.trails && RowOk(w, id) && w.links.Keys <= w'.links.Keys
    requires id in w'.payments && id in w'.trails && w'.payments[id] == w.payments[id] && w'.trails[id] == w.trails[id]
    ensures RowOk(w', id)
  {
  }

  lemma WrittenUnique(w: World, w': World, req: Request)
    requires CasMatches(w, req) && !CasConflicts(w, req) && Unique(w) && w'.payments == Write(w, req).payments
    ensures Unique(w')
  {
    var p, p' := w.payments[req.id], w'.payments[req.id];
    assert p'.linkId == p.linkId && (req.ToConfirmed? || p'.transactionHash == p.transactionHash);
  }

  lemma WrittenDebt(w: World, w': World, p: nat, req: Request, job: Job, current: Payment)
    requires RowsOk(w) && EventsOk(w) && DebtsOk(w) && Accounted(w)
    requires p < |w.procs| && w.procs[p] == CompareAndSet(req, job, current) && CasMatches(w, req)
    requires w' == Goto(Write(w, req), p, Reload(req, job, current)) && Evolves(w, w')
    ensures DebtsOk(w') && Accounted(w')
  {
    GoalIsNew(w, req);
    var key := (req.id, req.Goal());
    HeldAfterWrite(w, w', req);
    DebtIncurred(w, w', p, Reload(req, job, current), key);
  }

  lemma HeldAfterWrite(w: World, w': World, req: Request)
    requires w.trails.Keys == w.payments.Keys && CasMatches(w, req)
    requires w'.payments == Write(w, req).payments && w'.trails == Write(w, req).trails
    ensures forall k :: HeldBy(w', k) <==> HeldBy(w, k) || k == (req.id, req.Goal())
  {
    assert w'.trails[req.id] == w.trails[req.id] + [req.Goal()];
  }

  // ---------- all moves ----------

  /** Looking up a row yields a faithful copy. */
  lemma CopyNow(w: World, id: nat)
    requires RowsOk(w) && id in w.payments
    ensures CopyOk(w, w.payments[id]) && w.payments[id].id == id
  {
    assert RowOk(w, id);
    assert w.trails[id][|w.trails[id]| - 1] == w.payments[id].status;
  }

  /** A row that shows the goal now has reached it. */
  lemma ReachedNow(w: World, req: Request)
    requires RowsOk(w) && HeldBy(w, (req.id, req.Goal()))
    ensures Reached(w, req, w.payments[req.id])
  {
    CopyNow(w, req.id);
    var trail := w.trails[req.id];
    assert RowOk(w, req.id);
    var i :| 0 <= i < |trail| && trail[i] == req.Goal();
    assert trail[i] == req.Goal() && trail[|trail| - 1] == w.payments[req.id].status;
  }

  lemma PrepareMove(c: Chain, w: World, pc: Pc, now: int, horizon: Horizon)
    requires RowsOk(w) && ProcOk(w, pc)
    requires !IsCreating(pc) && !IsTransiting(pc) && !IsOver(pc) && !pc.SyncLink?
    ensures ProcOk(w, Prepare(c, w, pc, now, horizon)) && Owes(Prepare(c, w, pc, now, horizon)).None?
  {
    if pc.ScanPending? || pc.FindForFinality? {
      LookupMove(c, w, pc, now, horizon);
    }
  }

  lemma LookupMove(c: Chain, w: World, pc: Pc, now: int, horizon: Horizon)
    requires RowsOk(w) && (pc.ScanPending? || pc.FindForFinality?)
    ensures ProcOk(w, Prepare(c, w, pc, now, horizon)) && Owes(Prepare(c, w, pc, now, horizon)).None?
  {
    if pc.id in w.payments { CopyNow(w, pc.id); }
  }

  lemma ReadMove(w: World, p: nat, req: Request, job: Job)
    requires Inv(w) && p < |w.procs| && w.procs[p] == Read(req, job)
    ensures var w' := Transition(w, p, w.procs[p]); Inv(w') && Evolves(w, w')
  {
    if req.id !in w.payments || w.payments[req.id].status !in AllowedFrom(req.Goal()) {
      LocalMove(w, p, Refused(req, job));
    } else {
      CopyNow(w, req.id);
      LocalMove(w, p, CompareAndSet(req, job, w.payments[req.id]));
    }
  }

  lemma LostMove(w: World, p: nat, req: Request, job: Job, current: Payment)
    requires Inv(w) && p < |w.procs| && w.procs[p] == LostReload(req, job, current)
    ensures var w' := Transition(w, p, w.procs[p]); Inv(w') && Evolves(w, w')
  {
    if req.id in w.payments && w.payments[req.id].status == req.Goal() {
      FoundReached(w, req, job);
      LocalMove(w, p, AfterTransition(req, job, w.payments[req.id]));
    } else {
      LocalMove(w, p, Refused(req, job));
    }
  }

  lemma FoundReached(w: World, req: Request, job: Job)
    requires RowsOk(w) && req.id in w.payments && w.payments[req.id].status == req.Goal()
    ensures ProcOk(w, AfterTransition(req, job, w.payments[req.id])) && Owes(AfterTransition(req, job, w.payments[req.id])).None?
  {
    CopyNow(w, req.id);
    ReachedNow(w, req);
  }

  lemma WriteMove(w: World, p: nat)
    requires Inv(w) && p < |w.procs| && w.procs[p].CompareAndSet?
    ensures var w' := Transition(w, p, w.procs[p]); Inv(w') && Evolves(w, w')
  {
    var pc := w.procs[p];
    if !CasMatches(w, pc.req) {
      LocalMove(w, p, LostReload(pc.req, pc.job, pc.current));
    } else if CasConflicts(w, pc.req) {
      LocalMove(w, p, Conflicted);
    } else {
      CasMove(w, p, pc.req, pc.job, pc.current);
    }
  }

  lemma ReloadMove(w: World, p: nat)
    requires Inv(w) && p < |w.procs| && w.procs[p].Reload?
    ensures var w' := Transition(w, p, w.procs[p]); Inv(w') && Evolves(w, w')
  {
    var pc := w.procs[p];
    ReachedNow(w, pc.req);
    LocalMove(w, p, EmitEvent(pc.req, pc.job, w.payments[pc.req.id]));
  }

  /** The unique index on (paymentId, type) never rejects an event. */
  lemma EmitEventMove(w: World, p: nat)
    requires Inv(w) && p < |w.procs| && w.procs[p].EmitEvent?
    ensures var w' := Transition(w, p, w.procs[p]); Inv(w') && Evolves(w, w')
    ensures !Logged(w, w.procs[p].updated.id, w.procs[p].req.Goal())
  {
    var pc := w.procs[p];
    EmitMove(w, p, Event(pc.updated.id, pc.req.Goal(), pc.updated), AfterTransition(pc.req, pc.job, pc.updated));
  }

  /** A turn keeps the invariant and only lets the store evolve. */
  lemma StepKeeps(c: Chain, w: World, t: Turn)
    requires Inv(w)
    ensures Inv(Step(c, w, t)) && Evolves(w, Step(c, w, t))
  {
    match t
    case Start(pc) => if IsEntry(pc) { StartMove(w, pc); }
    case Go(p, now, horizon, fault) => if p < |w.procs| { AttemptKeeps(c, w, p, now, horizon, fault); }
  }

  lemma AttemptKeeps(c: Chain, w: World, p: nat, now: int, horizon: Horizon, fault: Fault)
    requires Inv(w) && p < |w.procs|
    ensures var w' := Attempted(c, w, p, now, horizon, fault); Inv(w') && Evolves(w, w')
  {
    MoveKeeps(c, w, p, now, horizon);
    if fault == Before {
      ThrowKeeps(w, p);
    } else if fault == After {
      var w1 := Move(c, w, p, now, horizon);
      ThrowKeeps(w1, p);
      EvolvesTransitive(w, w1, Thrown(w1, p));
    }
  }

  lemma ThrowKeeps(w: World, p: nat)
    requires Inv(w) && p < |w.procs|
    ensures Inv(Thrown(w, p)) && Evolves(w, Thrown(w, p))
  {
    LocalMove(w, p, DatabaseError(Owes(w.procs[p])));
  }

  lemma StartMove(w: World, pc: Pc)
    requires Inv(w) && IsEntry(pc)
    ensures var w' := w.(procs := w.procs + [pc]); Inv(w') && Evolves(w, w')
  {
    var w' := w.(procs := w.procs + [pc]);
    RowsFrame(w, w');
    LinksFrame(w, w');
    EventsStay(w, w');
    forall q | 0 <= q < |w'.procs| ensures ProcOk(w', w'.procs[q]) {
      if q < |w.procs| {
        ProcStays(w, w', w.procs[q]);
      }
    }
    StartDebts(w, w', pc);
  }

  lemma StartDebts(w: World, w': World, pc: Pc)
    requires DebtsOk(w) && Accounted(w) && Owes(pc).None? && w' == w.(procs := w.procs + [pc])
    ensures DebtsOk(w') && Accounted(w')
  {
    forall id: nat, s | HeldBy(w', (id, s)) ensures Logged(w', id, s) || Owed(w', id, s) {
      assert HeldBy(w, (id, s));
      if !Logged(w, id, s) {
        var q :| 0 <= q < |w.procs| && Owes(w.procs[q]) == Some((id, s));
        assert Owes(w'.procs[q]) == Some((id, s));
      }
    }
  }

  lemma MoveKeeps(c: Chain, w: World, p: nat, now: int, horizon: Horizon)
    requires Inv(w) && p < |w.procs|
    ensures var w' := Move(c, w, p, now, horizon); Inv(w') && Evolves(w, w')
  {
    var pc := w.procs[p];
    if IsCreating(pc) {
      CreationMove(w, p);
    } else if IsTransiting(pc) {
      TransitionMove(w, p);
    } else if pc.SyncLink? {
      SyncMove(w, p);
    } else if IsOver(pc) {
      RowsFrame(w, w);
    } else {
      PrepareMove(c, w, pc, now, horizon);
      LocalMove(w, p, Prepare(c, w, pc, now, horizon));
    }
  }

  lemma TransitionMove(w: World, p: nat)
    requires Inv(w) && p < |w.procs| && IsTransiting(w.procs[p])
    ensures var w' := Transition(w, p, w.procs[p]); Inv(w') && Evolves(w, w')
  {
    match w.procs[p]
    case CompareAndSet(_, _, _) => WriteMove(w, p);
    case Reload(_, _, _) => ReloadMove(w, p);
    case EmitEvent(_, _, _) => EmitEventMove(w, p);
    case Read(req, job) => ReadMove(w, p, req, job);
    case LostReload(req, job, current) => LostMove(w, p, req, job, current);
  }

  lemma CreationMove(w: World, p: nat)
    requires Inv(w) && p < |w.procs| && IsCreating(w.procs[p])
    ensures var w' := Creation(w, p); Inv(w') && Evolves(w, w')
  {
    match w.procs[p]
    case CreateLink(d) =>
      if d.linkId in w.links { LocalMove(w, p, Conflicted); } else { CreateLinkMove(w, p, d); }
    case InsertPayment(d) =>
      if d.id in w.payments || LinkTaken(w, d.linkId) { LocalMove(w, p, Conflicted); } else { InsertMove(w, p, d); }
    case EmitCreated(row) => EmitCreatedMove(w, p, row);
  }

  lemma SyncMove(w: World, p: nat)
    requires Inv(w) && p < |w.procs| && w.procs[p].SyncLink?
    ensures var w' := Sync(w, p); Inv(w') && Evolves(w, w')
  {
    var pc := w.procs[p];
    if pc.row.transactionHash.Some? && pc.row.linkId in w.links {
      SyncLinkMove(w, p, pc.req, pc.job, pc.row);
    } else {
      LocalMove(w, p, Sync(w, p).procs[p]);
    }
  }

  lemma EmitCreatedMove(w: World, p: nat, row: Payment)
    requires Inv(w) && p < |w.procs| && w.procs[p] == EmitCreated(row)
    ensures !Logged(w, row.id, Created)
    ensures var w' := Goto(w.(events := w.events + [Event(row.id, Created, row)]), p, Read(ToPending(row.id), Create));
      Inv(w') && Evolves(w, w')
  {
    assert ProcOk(w, w.procs[p]) && Owes(w.procs[p]) == Some((row.id, Created));
    var e := Event(row.id, Created, row);
    assert EventOk(w, e) by {
      var i :| 0 <= i < |w.trails[row.id]| && w.trails[row.id][i] == Created;
      assert HeldThen(w.trails[row.id], Created, Created);
    }
    EmitMove(w, p, e, Read(ToPending(row.id), Create));
  }

  /** Every reachable store has the invariant: any schedule, any number of processes, any crashes. */
  lemma {:induction false} RunKeeps(c: Chain, w: World, schedule: seq<Turn>)
    requires Inv(w)
    ensures Inv(Run(c, w, schedule)) && Evolves(w, Run(c, w, schedule))
    decreases |schedule|
  {
    if schedule == [] {
      RowsFrame(w, w);
    } else {
      var w1 := Step(c, w, schedule[0]);
      StepKeeps(c, w, schedule[0]);
      RunKeeps(c, w1, schedule[1..]);
      EvolvesTransitive(w, w1, Run(c, w1, schedule[1..]));
    }
  }

  lemma EvolvesTransitive(w: World, w1: World, w2: World)
    requires RowsOk(w1) && Evolves(w, w1) && Evolves(w1, w2)
    ensures Evolves(w, w2)
  {
  }

  lemma InitOk()
    ensures Inv(INIT)
  {
  }
}
