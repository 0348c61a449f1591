/**
 * What an event's snapshot shows: the row as reloaded after the compare-and-set, which another process may have moved
 * on in the meantime.
 */
module PaymentSnapshots {
  import opened Wrappers
  import opened Verifier
  import opened Lifecycle
  import opened PaymentMachine
  import opened PaymentInvariant
  import opened PaymentSafety
  import opened PaymentHistory
  import opened PaymentCalls

  /** A created event shows created, and an event of a terminal kind shows that kind: nothing can follow it. */
  lemma FixedSnapshots(c: Chain, schedule: seq<Turn>, i: nat)
    requires i < |Run(c, INIT, schedule).events|
    ensures var e := Run(c, INIT, schedule).events[i];
      e.kind == Created || IsTerminal(e.kind) ==> e.snapshot.status == e.kind
  {
    var w := Run(c, INIT, schedule);
    InitOk();
    RunKeeps(c, INIT, schedule);
    var e := w.events[i];
    assert EventOk(w, e) && RowOk(w, e.paymentId);
    if IsTerminal(e.kind) {
      TerminalIsLast(w.trails[e.paymentId], e.kind, e.snapshot.status);
    }
  }

  lemma TerminalIsLast(trail: seq<Status>, s: Status, t: Status)
    requires IsPath(trail) && IsTerminal(s) && HeldThen(trail, s, t)
    ensures t == s
  {
    var i, j :| 0 <= i <= j < |trail| && trail[i] == s && trail[j] == t;
    if i < j {
      ChainsClimb(trail, i, j);
    }
  }

  // ---------- where a snapshot comes from ----------

  predicate Takes(ws: seq<World>, schedule: seq<Turn>, p: nat, k: nat)
    requires |ws| == |schedule| + 1 && k < |schedule|
  {
    Own(schedule, p, k) && p < |ws[k].procs| && p < |ws[k + 1].procs|
  }

  /** Turn `a` is the winning compare-and-set of process `p`, which goes on to reload. */
  ghost predicate WonAt(ws: seq<World>, schedule: seq<Turn>, p: nat, req: Request, a: nat)
    requires |ws| == |schedule| + 1 && a < |schedule|
  {
    && Takes(ws, schedule, p, a) && WinsAt(ws, schedule, p, req, a)
    && ws[a + 1].procs[p].Reload? && ws[a + 1].procs[p].req == req
  }

  /** Turn `b` is its reload, which reads `row`. */
  ghost predicate ReloadedAt(ws: seq<World>, schedule: seq<Turn>, p: nat, req: Request, row: Payment, b: nat)
    requires |ws| == |schedule| + 1 && b < |schedule|
  {
    && Takes(ws, schedule, p, b) && ws[b].procs[p].Reload? && ws[b].procs[p].req == req
    && req.id in ws[b].payments && ws[b].payments[req.id] == row
  }

  /** The row was read by the reload of turn `b`, after the change this request made in turn `a`. */
  ghost predicate ReadBetween(ws: seq<World>, schedule: seq<Turn>, req: Request, row: Payment, a: nat, b: nat)
    requires |ws| == |schedule| + 1
  {
    a < b < |schedule| && exists p: nat :: WonAt(ws, schedule, p, req, a) && ReloadedAt(ws, schedule, p, req, row, b)
  }

  /** By turn `n`: a reloading process has won, and a row about to be logged, or logged, was reloaded after a win. */
  ghost predicate ReloadingOk(ws: seq<World>, schedule: seq<Turn>, n: nat, p: nat)
    requires |ws| == |schedule| + 1 && n <= |schedule| && p < |ws[n].procs|
  {
    var pc := ws[n].procs[p];
    && (pc.Reload? ==> exists a :: 0 <= a < n && WonAt(ws, schedule, p, pc.req, a))
    && (pc.EmitEvent? ==> exists a, b :: 0 <= a < b < n && ReadBetween(ws, schedule, pc.req, pc.updated, a, b))
  }

  ghost predicate EventTraced(ws: seq<World>, schedule: seq<Turn>, n: nat, e: Event)
    requires |ws| == |schedule| + 1 && n <= |schedule|
  {
    e.kind == Created || exists req: Request, a, b ::
      0 <= a < b < n && req.id == e.paymentId && req.Goal() == e.kind && ReadBetween(ws, schedule, req, e.snapshot, a, b)
  }

  ghost predicate Traced(ws: seq<World>, schedule: seq<Turn>, n: nat)
    requires |ws| == |schedule| + 1 && n <= |schedule|
  {
    && (forall p | 0 <= p < |ws[n].procs| :: ReloadingOk(ws, schedule, n, p))
    && (forall i | 0 <= i < |ws[n].events| :: EventTraced(ws, schedule, n, ws[n].events[i]))
  }

  lemma EarlierStays(ws: seq<World>, schedule: seq<Turn>, n: nat, p: nat)
    requires |ws| == |schedule| + 1 && n < |schedule| && p < |ws[n].procs| && p < |ws[n + 1].procs|
    requires ReloadingOk(ws, schedule, n, p) && ws[n + 1].procs[p] == ws[n].procs[p]
    ensures ReloadingOk(ws, schedule, n + 1, p)
  {
    var pc := ws[n].procs[p];
    if pc.Reload? {
      var a :| 0 <= a < n && WonAt(ws, schedule, p, pc.req, a);
      assert a < n + 1;
    }
    if pc.EmitEvent? {
      var a, b :| 0 <= a < b < n && ReadBetween(ws, schedule, pc.req, pc.updated, a, b);
      assert b < n + 1;
    }
  }

  lemma TracedStays(ws: seq<World>, schedule: seq<Turn>, n: nat, e: Event)
    requires |ws| == |schedule| + 1 && n < |schedule| && EventTraced(ws, schedule, n, e)
    ensures EventTraced(ws, schedule, n + 1, e)
  {
    if e.kind != Created {
      var req: Request, a, b :| 0 <= a < b < n && req.id == e.paymentId && req.Goal() == e.kind
                                && ReadBetween(ws, schedule, req, e.snapshot, a, b);
      assert b < n + 1;
    }
  }

  /** What one turn can do to a reload, an emit and the log. */
  ghost predicate SnapshotMoves(w: World, w': World, p: nat, fault: Fault)
    requires p < |w.procs| && p < |w'.procs|
  {
    var pc, pc' := w.procs[p], w'.procs[p];
    && (pc'.Reload? && pc' != pc ==> Winning(w, p, pc'.req) && IsWritten(w, w', pc'.req))
    && (pc'.EmitEvent? && pc' != pc ==>
          pc.Reload? && pc.req == pc'.req && pc'.req.id in w.payments && w.payments[pc'.req.id] == pc'.updated)
    && (|| w'.events == w.events
        || (pc.EmitEvent? && w'.events == w.events + [Event(pc.updated.id, pc.req.Goal(), pc.updated)])
        || (pc.EmitCreated? && w'.events == w.events + [Event(pc.row.id, Created, pc.row)]))
  }

  lemma MoveSnapshots(c: Chain, w: World, p: nat, now: int, horizon: Horizon)
    requires p < |w.procs|
    ensures SnapshotMoves(w, Move(c, w, p, now, horizon), p, NoFault)
  {
    if IsTransiting(w.procs[p]) {
      TransitionSnapshots(w, p);
    }
  }

  lemma TransitionSnapshots(w: World, p: nat)
    requires p < |w.procs|
    ensures var w' := Transition(w, p, w.procs[p]); |w'.procs| == |w.procs| && SnapshotMoves(w, w', p, NoFault)
  {
  }

  lemma AttemptSnapshots(c: Chain, w: World, p: nat, now: int, horizon: Horizon, fault: Fault)
    requires p < |w.procs|
    ensures var w' := Attempted(c, w, p, now, horizon, fault); |w'.procs| == |w.procs| && SnapshotMoves(w, w', p, fault)
  {
    MoveSnapshots(c, w, p, now, horizon);
  }

  lemma OwnTraced(c: Chain, ws: seq<World>, schedule: seq<Turn>, n: nat, p: nat)
    requires OwnTurn(c, ws, schedule, p, n) && Traced(ws, schedule, n)
    ensures p < |ws[n + 1].procs| && ReloadingOk(ws, schedule, n + 1, p)
  {
    var t := schedule[n];
    AttemptSnapshots(c, ws[n], p, t.now, t.horizon, t.fault);
    assert ReloadingOk(ws, schedule, n, p);
    OwnReloading(ws, schedule, n, p, t.fault);
  }

  lemma OwnReloading(ws: seq<World>, schedule: seq<Turn>, n: nat, p: nat, fault: Fault)
    requires |ws| == |schedule| + 1 && n < |schedule| && Own(schedule, p, n)
    requires p < |ws[n].procs| && p < |ws[n + 1].procs| && SnapshotMoves(ws[n], ws[n + 1], p, fault)
    requires ReloadingOk(ws, schedule, n, p)
    ensures ReloadingOk(ws, schedule, n + 1, p)
  {
    var pc, pc' := ws[n].procs[p], ws[n + 1].procs[p];
    if pc' == pc {
      EarlierStays(ws, schedule, n, p);
    } else if pc'.Reload? {
      assert WonAt(ws, schedule, p, pc'.req, n);
    } else if pc'.EmitEvent? {
      var a :| 0 <= a < n && WonAt(ws, schedule, p, pc.req, a);
      assert ReloadedAt(ws, schedule, p, pc'.req, pc'.updated, n);
      assert ReadBetween(ws, schedule, pc'.req, pc'.updated, a, n);
    }
  }

  /** The event appended in an own turn is traced. */
  lemma AppendTraced(ws: seq<World>, schedule: seq<Turn>, n: nat, p: nat, i: nat, fault: Fault)
    requires |ws| == |schedule| + 1 && n < |schedule| && p < |ws[n].procs| && p < |ws[n + 1].procs|
    requires SnapshotMoves(ws[n], ws[n + 1], p, fault) && Traced(ws, schedule, n) && Inv(ws[n])
    requires i < |ws[n + 1].events|
    ensures EventTraced(ws, schedule, n + 1, ws[n + 1].events[i])
  {
    var w, pc := ws[n], ws[n].procs[p];
    if i < |w.events| {
      assert ws[n + 1].events[i] == w.events[i];
      TracedStays(ws, schedule, n, w.events[i]);
    } else if pc.EmitEvent? {
      assert ProcOk(w, pc) && ReloadingOk(ws, schedule, n, p);
      var a, b :| 0 <= a < b < n && ReadBetween(ws, schedule, pc.req, pc.updated, a, b);
      assert b < n + 1 && ws[n + 1].events[i].snapshot == pc.updated;
    }
  }

  lemma {:induction false} AllTraced(c: Chain, ws: seq<World>, schedule: seq<Turn>, n: nat)
    requires IsRun(c, ws, schedule) && n <= |schedule|
    ensures Traced(ws, schedule, n)
  {
    if n > 0 {
      AllTraced(c, ws, schedule, n - 1);
      NextTraced(c, ws, schedule, n - 1);
    }
  }

  lemma NextTraced(c: Chain, ws: seq<World>, schedule: seq<Turn>, n: nat)
    requires IsRun(c, ws, schedule) && n < |schedule| && Traced(ws, schedule, n)
    ensures Traced(ws, schedule, n + 1)
  {
    NextInRun(c, ws, schedule, n);
    var t := schedule[n];
    if t.Go? && t.proc < |ws[n].procs| {
      OwnTurnInRun(c, ws, schedule, t.proc, n);
      GoTraced(c, ws, schedule, n, t.proc);
    } else {
      StartTraced(c, ws, schedule, n);
    }
  }

  lemma StartTraced(c: Chain, ws: seq<World>, schedule: seq<Turn>, n: nat)
    requires |ws| == |schedule| + 1 && n < |schedule| && Traced(ws, schedule, n) && ws[n + 1] == Step(c, ws[n], schedule[n])
    requires !(schedule[n].Go? && schedule[n].proc < |ws[n].procs|)
    ensures Traced(ws, schedule, n + 1)
  {
    var m := n + 1;
    forall q | 0 <= q < |ws[m].procs| ensures ReloadingOk(ws, schedule, m, q) {
      if q < |ws[n].procs| { EarlierStays(ws, schedule, n, q); }
    }
    forall i | 0 <= i < |ws[m].events| ensures EventTraced(ws, schedule, m, ws[m].events[i]) {
      TracedStays(ws, schedule, n, ws[n].events[i]);
    }
  }

  lemma GoTraced(c: Chain, ws: seq<World>, schedule: seq<Turn>, n: nat, p: nat)
    requires OwnTurn(c, ws, schedule, p, n) && Traced(ws, schedule, n)
    ensures Traced(ws, schedule, n + 1)
  {
    var m := n + 1;
    var t := schedule[n];
    AttemptSnapshots(c, ws[n], p, t.now, t.horizon, t.fault);
    OnlyOneTurns(c, ws[n], p, t.now, t.horizon, t.fault);
    OwnTraced(c, ws, schedule, n, p);
    forall q | 0 <= q < |ws[m].procs| ensures ReloadingOk(ws, schedule, m, q) {
      if q != p { EarlierStays(ws, schedule, n, q); }
    }
    forall i | 0 <= i < |ws[m].events| ensures EventTraced(ws, schedule, m, ws[m].events[i]) {
      AppendTraced(ws, schedule, n, p, i, t.fault);
    }
  }

  lemma OnlyOneTurns(c: Chain, w: World, p: nat, now: int, horizon: Horizon, fault: Fault)
    requires p < |w.procs|
    ensures var w' := Attempted(c, w, p, now, horizon, fault);
      |w'.procs| == |w.procs| && forall q | 0 <= q < |w.procs| && q != p :: w'.procs[q] == w.procs[q]
  {
    forall q: nat | q < |w.procs| && q != p
      ensures q < |Attempted(c, w, p, now, horizon, fault).procs| &&
        Attempted(c, w, p, now, horizon, fault).procs[q] == w.procs[q]
    {
      Bystander(c, w, Go(p, now, horizon, fault), q);
    }
  }

  // ---------- when a snapshot shows the event's own status ----------

  /** Turn `k` moved the payment on to another status. */
  ghost predicate Advanced(ws: seq<World>, id: nat, k: nat)
    requires k + 1 < |ws|
  {
    id in ws[k].payments && id in ws[k + 1].payments && ws[k].payments[id].status != ws[k + 1].payments[id].status
  }

  /** From turn `a` to `b` the row keeps its status exactly if no turn in between moved it; a status left never returns. */
  lemma {:induction false} StatusKeptIff(c: Chain, ws: seq<World>, schedule: seq<Turn>, id: nat, a: nat, b: nat)
    requires IsRun(c, ws, schedule) && a <= b <= |schedule| && id in ws[a].payments && id in ws[a].trails
    ensures id in ws[b].payments && id in ws[b].trails && ws[a].trails[id] <= ws[b].trails[id]
    ensures ws[b].trails[id] == ws[a].trails[id] <==> forall k | a <= k < b :: !Advanced(ws, id, k)
    decreases b - a
  {
    if a < b {
      StatusKeptIff(c, ws, schedule, id, a, b - 1);
      TurnKeptIff(c, ws, schedule, id, b - 1);
    }
  }

  lemma TurnKeptIff(c: Chain, ws: seq<World>, schedule: seq<Turn>, id: nat, k: nat)
    requires IsRun(c, ws, schedule) && k < |schedule| && id in ws[k].payments
    ensures id in ws[k + 1].payments && id in ws[k].trails && id in ws[k + 1].trails
    ensures ws[k].trails[id] <= ws[k + 1].trails[id] && (ws[k + 1].trails[id] == ws[k].trails[id] <==> !Advanced(ws, id, k))
  {
    NextInRun(c, ws, schedule, k);
    TrailRecordsStatus(c, ws[k], schedule[k], id);
    AdvanceIsEdge(ws, id, k);
  }

  lemma AdvanceIsEdge(ws: seq<World>, id: nat, k: nat)
    requires k + 1 < |ws| && id in ws[k].payments && id in ws[k].trails && RowAdvances(ws[k], ws[k + 1], id)
    ensures ws[k].trails[id] <= ws[k + 1].trails[id]
    ensures ws[k + 1].trails[id] == ws[k].trails[id] <==> !Advanced(ws, id, k)
  {
  }

  lemma TrailTellsStatus(w: World, w': World, id: nat)
    requires id in w.payments && id in w.trails && id in w'.payments && id in w'.trails && RowOk(w, id) && RowOk(w', id)
    requires w.trails[id] <= w'.trails[id]
    ensures w'.payments[id].status == w.payments[id].status <==> w'.trails[id] == w.trails[id]
  {
    var t, t' := w.trails[id], w'.trails[id];
    if |t| < |t'| {
      ChainsClimb(t', |t| - 1, |t'| - 1);
    }
  }

  /**
   * Every event but the created one was logged with the row its process reloaded in some turn `b` after winning in some
   * turn `a`, and the snapshot shows the event's own status if and only if no turn between the two moved the payment on.
   */
  lemma SnapshotShowsOwnStatusIff(c: Chain, ws: seq<World>, schedule: seq<Turn>, i: nat) returns (req: Request, a: nat, b: nat)
    requires IsRun(c, ws, schedule) && i < |ws[|schedule|].events| && ws[|schedule|].events[i].kind != Created
    ensures var e := ws[|schedule|].events[i];
      && a < b < |schedule| && req.id == e.paymentId && req.Goal() == e.kind && ReadBetween(ws, schedule, req, e.snapshot, a, b)
      && (e.snapshot.status == e.kind <==> forall k | a < k < b :: !Advanced(ws, e.paymentId, k))
  {
    var e := ws[|schedule|].events[i];
    AllTraced(c, ws, schedule, |schedule|);
    assert EventTraced(ws, schedule, |schedule|, e);
    req, a, b :| 0 <= a < b < |schedule| && req.id == e.paymentId && req.Goal() == e.kind
                 && ReadBetween(ws, schedule, req, e.snapshot, a, b);
    var p: nat :| WonAt(ws, schedule, p, req, a) && ReloadedAt(ws, schedule, p, req, e.snapshot, b);
    ReadStatus(c, ws, schedule, req, a, b);
  }

  lemma ReadStatus(c: Chain, ws: seq<World>, schedule: seq<Turn>, req: Request, a: nat, b: nat)
    requires IsRun(c, ws, schedule) && a < b < |schedule| && CasMatches(ws[a], req) && IsWritten(ws[a], ws[a + 1], req)
    ensures req.id in ws[b].payments
    ensures ws[b].payments[req.id].status == req.Goal() <==> forall k | a < k < b :: !Advanced(ws, req.id, k)
  {
    StoreInRun(c, ws, schedule, a + 1);
    StoreInRun(c, ws, schedule, b);
    assert ws[a + 1].payments[req.id].status == req.Goal();
    StatusKeptIff(c, ws, schedule, req.id, a + 1, b);
    assert RowOk(ws[a + 1], req.id) && RowOk(ws[b], req.id);
    TrailTellsStatus(ws[a + 1], ws[b], req.id);
  }

  // ---------- a snapshot that shows a later status ----------

  const DRAFT := Draft(0, 0, None, Target("memo", "account", "1", "USDC", Test, None))

  const CREATED_ROW := NewPayment(DRAFT)
  const PENDING_ROW := ToPending(0).Apply(CREATED_ROW)
  const CANCELED_ROW := ToCanceled(0, 5).Apply(PENDING_ROW)

  const CREATED_EVENT := Event(0, Created, CREATED_ROW)

  /** A store that holds this one payment. */
  function Holding(row: Payment, trail: seq<Status>, events: seq<Event>, procs: seq<Pc>): World {
    World(map[0 := row], map[0 := trail], map[0 := None], events, procs)
  }

  lemma Extended(c: Chain, s: seq<Turn>, t: Turn, w: World) returns (s': seq<Turn>)
    requires Step(c, Run(c, INIT, s), t) == w
    ensures s' == s + [t] && Run(c, INIT, s') == w
  {
    RunOneMore(c, s, t);
    s' := s + [t];
  }

  function Turn0(): Turn {
    Go(0, 0, Down, NoFault)
  }

  /** The creator inserts the payment and logs its creation. */
  lemma PaymentCreated(c: Chain) returns (s: seq<Turn>)
    ensures Run(c, INIT, s) == Holding(CREATED_ROW, [Created], [CREATED_EVENT], [Read(ToPending(0), Create)])
  {
    s := [];
    s := Extended(c, s, Start(CreateLink(DRAFT)), World(map[], map[], map[], [], [CreateLink(DRAFT)]));
    s := Extended(c, s, Turn0(), World(map[], map[], map[0 := None], [], [InsertPayment(DRAFT)]));
    s := Extended(c, s, Turn0(), Holding(CREATED_ROW, [Created], [], [EmitCreated(CREATED_ROW)]));
    s := Extended(c, s, Turn0(), Holding(CREATED_ROW, [Created], [CREATED_EVENT], [Read(ToPending(0), Create)]));
  }

  lemma SwapStep(
    c: Chain, row: Payment, trail: seq<Status>, events: seq<Event>, procs: seq<Pc>, p: nat,
    req: Request, job: Job, current: Payment, now: int)
    requires p < |procs| && procs[p] == CompareAndSet(req, job, current)
    requires req.id == 0 && !req.ToConfirmed? && row.status in AllowedFrom(req.Goal())
    ensures Step(c, Holding(row, trail, events, procs), Go(p, now, Down, NoFault)) ==
      Holding(req.Apply(row), trail + [req.Goal()], events, procs[p := Reload(req, job, current)])
  {
    var w := Holding(row, trail, events, procs);
    assert CasMatches(w, req) && !CasConflicts(w, req);
    assert Write(w, req) == Holding(req.Apply(row), trail + [req.Goal()], events, procs);
  }

  /** It moves the payment to pending and pauses before its reload. */
  lemma MovedToPending(c: Chain, s0: seq<Turn>) returns (s: seq<Turn>)
    requires Run(c, INIT, s0) == Holding(CREATED_ROW, [Created], [CREATED_EVENT], [Read(ToPending(0), Create)])
    ensures Run(c, INIT, s) ==
      Holding(PENDING_ROW, [Created, Pending], [CREATED_EVENT], [Reload(ToPending(0), Create, CREATED_ROW), FindForCancel(0)])
  {
    var reload := Reload(ToPending(0), Create, CREATED_ROW);
    s := Extended(c, s0, Turn0(),
                  Holding(CREATED_ROW, [Created], [CREATED_EVENT], [CompareAndSet(ToPending(0), Create, CREATED_ROW)]));
    SwapStep(c, CREATED_ROW, [Created], [CREATED_EVENT], Run(c, INIT, s).procs, 0, ToPending(0), Create, CREATED_ROW, 0);
    assert [Created] + [Pending] == [Created, Pending];
    s := Extended(c, s, Turn0(), Holding(PENDING_ROW, [Created, Pending], [CREATED_EVENT], [reload]));
    s := Extended(c, s, Start(FindForCancel(0)),
                  Holding(PENDING_ROW, [Created, Pending], [CREATED_EVENT], [reload, FindForCancel(0)]));
  }

  /** In that pause another request cancels it. */
  lemma CanceledMeanwhile(c: Chain, s0: seq<Turn>) returns (s: seq<Turn>)
    requires Run(c, INIT, s0) ==
      Holding(PENDING_ROW, [Created, Pending], [CREATED_EVENT], [Reload(ToPending(0), Create, CREATED_ROW), FindForCancel(0)])
    ensures Run(c, INIT, s) ==
      Holding(CANCELED_ROW, [Created, Pending, Canceled], [CREATED_EVENT],
              [Reload(ToPending(0), Create, CREATED_ROW), Reload(ToCanceled(0, 5), Cancel, PENDING_ROW)])
  {
    var reload, cancel := Reload(ToPending(0), Create, CREATED_ROW), ToCanceled(0, 5);
    s := Extended(c, s0, Go(1, 5, Down, NoFault),
                  Holding(PENDING_ROW, [Created, Pending], [CREATED_EVENT], [reload, Read(cancel, Cancel)]));
    s := Extended(c, s, Go(1, 5, Down, NoFault),
                  Holding(PENDING_ROW, [Created, Pending], [CREATED_EVENT], [reload, CompareAndSet(cancel, Cancel, PENDING_ROW)]));
    SwapStep(c, PENDING_ROW, [Created, Pending], [CREATED_EVENT], Run(c, INIT, s).procs, 1, cancel, Cancel, PENDING_ROW, 5);
    assert [Created, Pending] + [Canceled] == [Created, Pending, Canceled];
    s := Extended(c, s, Go(1, 5, Down, NoFault),
                  Holding(CANCELED_ROW, [Created, Pending, Canceled], [CREATED_EVENT], [reload, Reload(cancel, Cancel, PENDING_ROW)]));
  }

  /** A run from the empty store whose pending event shows the payment canceled. */
  lemma SnapshotCanShowLater(c: Chain) returns (schedule: seq<Turn>)
    ensures var w := Run(c, INIT, schedule);
      |w.events| == 2 && w.events[1].kind == Pending && w.events[1].snapshot.status == Canceled
  {
    var s := PaymentCreated(c);
    s := MovedToPending(c, s);
    s := CanceledMeanwhile(c, s);
    schedule := LoggedLate(c, s);
  }

  lemma LoggedLate(c: Chain, s0: seq<Turn>) returns (s: seq<Turn>)
    requires Run(c, INIT, s0) ==
      Holding(CANCELED_ROW, [Created, Pending, Canceled], [CREATED_EVENT],
              [Reload(ToPending(0), Create, CREATED_ROW), Reload(ToCanceled(0, 5), Cancel, PENDING_ROW)])
    ensures Run(c, INIT, s).events == [CREATED_EVENT, Event(0, Pending, CANCELED_ROW)]
  {
    var other := Reload(ToCanceled(0, 5), Cancel, PENDING_ROW);
    s := Extended(c, s0, Turn0(),
                  Holding(CANCELED_ROW, [Created, Pending, Canceled], [CREATED_EVENT],
                          [EmitEvent(ToPending(0), Create, CANCELED_ROW), other]));
    s := Extended(c, s, Turn0(),
                  Holding(CANCELED_ROW, [Created, Pending, Canceled], [CREATED_EVENT, Event(0, Pending, CANCELED_ROW)],
                          [Returned(ToPending(0), Create, CANCELED_ROW), other]));
  }
}
