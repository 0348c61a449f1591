/** Status histories, write-once columns, the event log, and what a call's outcome says, over every schedule. */
module PaymentHistory {
  import opened Lifecycle
  import opened PaymentMachine
  import opened PaymentInvariant
  import opened PaymentSafety

  // ---------- status history ----------

  /** The row is as it was, or one edge further with the new status recorded. */
  ghost predicate RowAdvances(w: World, w': World, id: nat)
    requires id in w.payments && id in w.trails
  {
    && id in w'.payments && id in w'.trails
    && (|| (w'.payments[id] == w.payments[id] && w'.trails[id] == w.trails[id])
        || (w.payments[id].status in AllowedFrom(w'.payments[id].status) && w'.trails[id] == w.trails[id] + [w'.payments[id].status]))
  }

  /** `trails` is the true history: a turn leaves a row alone, or moves it along one edge and records the new status. */
  lemma TrailRecordsStatus(c: Chain, w: World, t: Turn, id: nat)
    requires w.trails.Keys == w.payments.Keys && id in w.payments
    ensures RowAdvances(w, Step(c, w, t), id)
  {
    if t.Go? && t.proc < |w.procs| {
      MoveAdvances(c, w, t.proc, t.now, t.horizon, id);
    }
  }

  lemma MoveAdvances(c: Chain, w: World, p: nat, now: int, horizon: Horizon, id: nat)
    requires w.trails.Keys == w.payments.Keys && id in w.payments && p < |w.procs|
    ensures RowAdvances(w, Move(c, w, p, now, horizon), id)
  {
    if IsTransiting(w.procs[p]) {
      TransitionWrites(w, p);
    } else {
      OtherWrites(c, w, p, now, horizon);
    }
  }

  lemma TransitionWrites(w: World, p: nat)
    requires p < |w.procs| && IsTransiting(w.procs[p])
    ensures var pc, w' := w.procs[p], Transition(w, p, w.procs[p]);
      if pc.CompareAndSet? && CasMatches(w, pc.req) && !CasConflicts(w, pc.req)
      then w'.payments == Write(w, pc.req).payments && w'.trails == Write(w, pc.req).trails
      else w'.payments == w.payments && w'.trails == w.trails
  {
  }

  lemma OtherWrites(c: Chain, w: World, p: nat, now: int, horizon: Horizon)
    requires w.trails.Keys == w.payments.Keys && p < |w.procs| && !IsTransiting(w.procs[p])
    ensures var w' := Move(c, w, p, now, horizon);
      forall id | id in w.payments ::
        id in w'.payments && id in w'.trails && w'.payments[id] == w.payments[id] && w'.trails[id] == w.trails[id]
  {
  }

  lemma TerminalStep(c: Chain, w: World, t: Turn, id: nat)
    requires Inv(w) && id in w.payments && IsTerminal(w.payments[id].status)
    ensures id in Step(c, w, t).payments && Step(c, w, t).payments[id] == w.payments[id]
  {
    TrailRecordsStatus(c, w, t, id);
    NoEdgeFromTerminal(w.payments[id].status, Step(c, w, t).payments[id].status);
  }

  lemma NoEdgeFromTerminal(s: Status, s': Status)
    requires IsTerminal(s)
    ensures s !in AllowedFrom(s')
  {
  }

  /** A status, once terminal, stays, with the whole row. */
  lemma {:induction false} TerminalIsAbsorbing(c: Chain, w: World, schedule: seq<Turn>, id: nat)
    requires Inv(w) && id in w.payments && IsTerminal(w.payments[id].status)
    ensures id in Run(c, w, schedule).payments && Run(c, w, schedule).payments[id] == w.payments[id]
    decreases |schedule|
  {
    if schedule != [] {
      var w1 := Step(c, w, schedule[0]);
      StepKeeps(c, w, schedule[0]);
      TerminalStep(c, w, schedule[0], id);
      TerminalIsAbsorbing(c, w1, schedule[1..], id);
    }
  }

  /** Every history is a path of the lifecycle with at most three changes; its statuses are distinct. */
  lemma HistoriesArePaths(c: Chain, schedule: seq<Turn>, id: nat)
    requires id in Run(c, INIT, schedule).payments
    ensures var w := Run(c, INIT, schedule);
      && id in w.trails && IsPath(w.trails[id]) && w.trails[id] in LIFECYCLES && |w.trails[id]| - 1 <= 3
      && w.payments[id].status == w.trails[id][|w.trails[id]| - 1]
      && forall i, j | 0 <= i < j < |w.trails[id]| :: w.trails[id][i] != w.trails[id][j]
  {
    var w := Run(c, INIT, schedule);
    InitOk();
    RunKeeps(c, INIT, schedule);
    assert RowOk(w, id);
    PathsAreShort(w.trails[id]);
    PathsAreThese(w.trails[id]);
  }

  // ---------- write-once columns ----------

  lemma {:induction false} ConfirmedThen(trail: seq<Status>)
    requires IsPath(trail)
    ensures Confirmed in trail ==> trail[|trail| - 1] in {Confirmed, Completed, Failed}
    ensures trail[|trail| - 1] in {Confirmed, Completed} ==> Confirmed in trail
  {
    PathsAreShort(trail);
    var n := |trail|;
    if Confirmed in trail {
      var i :| 0 <= i < n && trail[i] == Confirmed;
      if i < n - 1 {
        assert trail[i] in AllowedFrom(trail[i + 1]) && IsTerminal(trail[i + 1]);
        assert i + 1 == n - 1;
      }
    }
    if trail[n - 1] == Completed {
      assert trail[n - 2] in AllowedFrom(trail[n - 1]) && trail[n - 2] == Confirmed;
    }
  }

  /** Which columns a status admits, and that a hash, its time, payer and issuer never change again. */
  lemma ColumnsAreWriteOnce(c: Chain, schedule: seq<Turn>, more: seq<Turn>, id: nat)
    requires id in Run(c, INIT, schedule).payments
    ensures var w, w' := Run(c, INIT, schedule), Run(c, Run(c, INIT, schedule), more);
      var p := w.payments[id];
      && (p.transactionHash.Some? <==> p.paidAt.Some?)
      && (p.transactionHash.Some? ==> p.status in {Confirmed, Completed, Failed})
      && (p.status in {Confirmed, Completed} ==> p.transactionHash.Some?)
      && (p.completedAt.Some? <==> p.status == Completed)
      && (p.canceledAt.Some? <==> p.status == Canceled)
      && (p.failureCode.Some? <==> p.status == Failed)
      && id in w'.payments && p.SameIdentity(w'.payments[id])
      && (p.transactionHash.Some? ==> p.SameAttribution(w'.payments[id]))
  {
    var w := Run(c, INIT, schedule);
    InitOk();
    RunKeeps(c, INIT, schedule);
    RunKeeps(c, w, more);
    assert RowOk(w, id);
    ConfirmedThen(w.trails[id]);
  }

  /** A checkout link shows no hash, or the hash of the payment it was created for. */
  lemma LinksShowTheirOwnPayment(c: Chain, schedule: seq<Turn>, id: nat)
    requires id in Run(c, INIT, schedule).payments
    ensures var w := Run(c, INIT, schedule); var l := w.payments[id].linkId;
      l in w.links && (w.links[l].None? || w.links[l] == w.payments[id].transactionHash)
  {
    var w := Run(c, INIT, schedule);
    InitOk();
    RunKeeps(c, INIT, schedule);
    assert RowOk(w, id) && LinkOk(w, w.payments[id].linkId);
  }

  // ---------- the event log ----------

  /** The kinds logged for one payment, in log order. */
  function KindsOf(events: seq<Event>, id: nat): seq<Status> {
    if events == [] then []
    else
      var last := events[|events| - 1];
      KindsOf(events[..|events| - 1], id) + (if last.paymentId == id then [last.kind] else [])
  }

  lemma {:induction false} KindsAreLogged(events: seq<Event>, id: nat, s: Status)
    ensures s in KindsOf(events, id) <==> exists i :: 0 <= i < |events| && events[i].paymentId == id && events[i].kind == s
  {
    if events != [] {
      var front, last := events[..|events| - 1], events[|events| - 1];
      KindsAreLogged(front, id, s);
      if s in KindsOf(events, id) && s !in KindsOf(front, id) {
        assert events[|events| - 1].kind == s;
      }
      if exists i :: 0 <= i < |front| && front[i].paymentId == id && front[i].kind == s {
        var i :| 0 <= i < |front| && front[i].paymentId == id && front[i].kind == s;
        assert events[i].paymentId == id && events[i].kind == s;
      }
    }
  }

  lemma {:induction false} KindsAreDistinct(events: seq<Event>, id: nat, s: Status)
    requires forall i, j | 0 <= i < j < |events| :: (events[i].paymentId, events[i].kind) != (events[j].paymentId, events[j].kind)
    ensures multiset(KindsOf(events, id))[s] <= 1
  {
    if events != [] {
      var front, last := events[..|events| - 1], events[|events| - 1];
      KindsAreDistinct(front, id, s);
      KindsAreLogged(front, id, s);
      if last.paymentId == id && last.kind == s {
        assert s !in KindsOf(front, id) by {
          forall i | 0 <= i < |front| && front[i].paymentId == id ensures front[i].kind != s {
            assert (events[i].paymentId, events[i].kind) != (events[|events| - 1].paymentId, events[|events| - 1].kind);
          }
        }
      }
    }
  }

  lemma {:induction false} DistinctCounts(trail: seq<Status>, s: Status)
    requires forall i, j | 0 <= i < j < |trail| :: trail[i] != trail[j]
    ensures multiset(trail)[s] == if s in trail then 1 else 0
  {
    if trail != [] {
      var n := |trail| - 1;
      assert trail == trail[..n] + [trail[n]];
      DistinctCounts(trail[..n], s);
    }
  }

  /** No process still owes an event of this payment. */
  ghost predicate SettledUp(w: World, id: nat) {
    forall p | 0 <= p < |w.procs| && Owes(w.procs[p]).Some? :: Owes(w.procs[p]).value.0 != id
  }

  lemma LoggedKinds(w: World, id: nat, s: Status)
    requires Inv(w) && id in w.payments
    ensures s in KindsOf(w.events, id) ==> s in w.trails[id]
    ensures SettledUp(w, id) && s in w.trails[id] ==> s in KindsOf(w.events, id)
  {
    KindsAreLogged(w.events, id, s);
    if s in KindsOf(w.events, id) {
      var i :| 0 <= i < |w.events| && w.events[i].paymentId == id && w.events[i].kind == s;
      assert EventOk(w, w.events[i]);
    }
    if s in w.trails[id] {
      assert HeldBy(w, (id, s));
    }
  }

  /**
   * The log agrees with the history: at most one event per lifecycle type and four in all, only for
   * statuses the payment held, and, once no process owes one, exactly one for each status held.
   */
  lemma EventsMatchHistory(c: Chain, schedule: seq<Turn>, id: nat)
    requires id in Run(c, INIT, schedule).payments
    ensures var w := Run(c, INIT, schedule);
      && id in w.trails
      && multiset(KindsOf(w.events, id)) <= multiset(w.trails[id])
      && |KindsOf(w.events, id)| <= 4
      && (SettledUp(w, id) ==> multiset(KindsOf(w.events, id)) == multiset(w.trails[id]))
  {
    var w := Run(c, INIT, schedule);
    InitOk();
    RunKeeps(c, INIT, schedule);
    assert RowOk(w, id);
    var trail, kinds := w.trails[id], KindsOf(w.events, id);
    PathsAreShort(trail);
    forall s ensures multiset(kinds)[s] <= multiset(trail)[s]
      && (SettledUp(w, id) ==> multiset(kinds)[s] == multiset(trail)[s])
    {
      KindsAreDistinct(w.events, id, s);
      DistinctCounts(trail, s);
      LoggedKinds(w, id, s);
    }
    assert |multiset(kinds)| <= |multiset(trail)| by {
      assert multiset(trail) == multiset(kinds) + (multiset(trail) - multiset(kinds));
    }
  }

  /** A status held and not logged is owed by a process: one still on its way to log it, or one that threw. */
  lemma MissingEventsAreOwed(c: Chain, schedule: seq<Turn>, id: nat, s: Status)
    requires HeldBy(Run(c, INIT, schedule), (id, s))
    ensures var w := Run(c, INIT, schedule); Logged(w, id, s) <==> !Owed(w, id, s)
  {
    InitOk();
    RunKeeps(c, INIT, schedule);
  }

  /** A snapshot shows the event's own status or one reachable from it, of the same payment. */
  lemma SnapshotsAreReachable(c: Chain, schedule: seq<Turn>, i: nat)
    requires i < |Run(c, INIT, schedule).events|
    ensures var e := Run(c, INIT, schedule).events[i]; e.snapshot.id == e.paymentId && Leads(e.kind, e.snapshot.status)
  {
    var w := Run(c, INIT, schedule);
    InitOk();
    RunKeeps(c, INIT, schedule);
    var e := w.events[i];
    assert EventOk(w, e) && RowOk(w, e.paymentId);
    HeldThenLeads(w.trails[e.paymentId], e.kind, e.snapshot.status);
  }
}
