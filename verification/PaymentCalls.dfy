/** What the outcome of one transition call says about the run it was part of. */
module PaymentCalls {
  import opened Wrappers
  import opened Lifecycle
  import opened PaymentMachine
  import opened PaymentInvariant
  import opened PaymentSafety
  import opened PaymentTheorems

  /** The stores of a run, one before each turn and one after the last. */
  ghost predicate IsRun(c: Chain, ws: seq<World>, schedule: seq<Turn>) {
    && |ws| == |schedule| + 1 && ws[0] == INIT
    && forall k | 0 <= k < |schedule| :: Follows(c, ws, schedule, k)
  }

  ghost predicate Follows(c: Chain, ws: seq<World>, schedule: seq<Turn>, k: nat)
    requires |ws| == |schedule| + 1 && k < |schedule|
  {
    ws[k + 1] == Step(c, ws[k], schedule[k])
  }

  lemma {:induction false} RunAppend(c: Chain, w: World, s: seq<Turn>, t: seq<Turn>)
    ensures Run(c, w, s + t) == Run(c, Run(c, w, s), t)
    decreases |s|
  {
    if s == [] {
      assert s + t == t;
    } else {
      assert (s + t)[1..] == s[1..] + t;
      RunAppend(c, Step(c, w, s[0]), s[1..], t);
    }
  }

  /** Such a list ends where `Run` does. */
  lemma {:induction false} RunEnds(c: Chain, ws: seq<World>, schedule: seq<Turn>, k: nat)
    requires IsRun(c, ws, schedule) && k <= |schedule|
    ensures ws[k] == Run(c, INIT, schedule[..k])
  {
    if k > 0 {
      RunEnds(c, ws, schedule, k - 1);
      assert schedule[..k] == schedule[..k - 1] + [schedule[k - 1]];
      assert Follows(c, ws, schedule, k - 1);
      RunOneMore(c, schedule[..k - 1], schedule[k - 1]);
    }
  }

  lemma RunOneMore(c: Chain, s: seq<Turn>, t: Turn)
    ensures Run(c, INIT, s + [t]) == Step(c, Run(c, INIT, s), t)
  {
    RunAppend(c, INIT, s, [t]);
    assert Run(c, Run(c, INIT, s), [t]) == Run(c, Step(c, Run(c, INIT, s), t), []);
  }

  lemma StoreInRun(c: Chain, ws: seq<World>, schedule: seq<Turn>, k: nat)
    requires IsRun(c, ws, schedule) && k <= |schedule|
    ensures Inv(ws[k])
  {
    RunEnds(c, ws, schedule, k);
    InitOk();
    RunKeeps(c, INIT, schedule[..k]);
  }

  lemma NextInRun(c: Chain, ws: seq<World>, schedule: seq<Turn>, k: nat)
    requires IsRun(c, ws, schedule) && k < |schedule|
    ensures ws[k + 1] == Step(c, ws[k], schedule[k]) && Inv(ws[k])
  {
    StoreInRun(c, ws, schedule, k);
    assert Follows(c, ws, schedule, k);
  }

  ghost predicate SameStore(w: World, w': World) {
    w.payments == w'.payments && w.trails == w'.trails && w.links == w'.links && w.events == w'.events
  }

  ghost predicate Shows(w: World, req: Request) {
    req.id in w.payments && w.payments[req.id].status == req.Goal()
  }

  // ---------- the phases of a call ----------

  predicate InCall(pc: Pc, req: Request) {
    (pc.Read? || pc.CompareAndSet? || pc.LostReload?) && pc.req == req
  }

  /** The compare-and-set is done and its event is not: still to come, or given up with an error. */
  predicate HasWon(pc: Pc, req: Request) {
    ((pc.Reload? || pc.EmitEvent?) && pc.req == req) || pc == DatabaseError(Some((req.id, req.Goal())))
  }

  predicate IsPast(pc: Pc, req: Request) {
    (pc.SyncLink? || pc.Returned?) && pc.req == req
  }

  /** StateTransitionException, or a hash that another payment holds. */
  predicate IsRefused(pc: Pc) {
    pc.Refused? || pc.Conflicted?
  }

  predicate HasBroken(pc: Pc) {
    pc == DatabaseError(None)
  }

  /** This process's compare-and-set is about to succeed. */
  predicate Winning(w: World, p: nat, req: Request) {
    && p < |w.procs| && w.procs[p].CompareAndSet? && w.procs[p].req == req
    && CasMatches(w, req) && !CasConflicts(w, req)
  }

  /** The store is as after exactly that write. */
  ghost predicate IsWritten(w: World, w': World, req: Request)
    requires CasMatches(w, req)
  {
    && w'.payments == Write(w, req).payments && w'.trails == Write(w, req).trails
    && w'.links == w.links && w'.events == w.events
  }

  /** What one turn of a call that has not written does. */
  ghost predicate CallMoves(w: World, w': World, p: nat, req: Request)
    requires p < |w'.procs|
  {
    var pc' := w'.procs[p];
    || (SameStore(w, w') && (InCall(pc', req) || IsRefused(pc') || HasBroken(pc') || (IsPast(pc', req) && Shows(w, req))))
    || (HasWon(pc', req) && Winning(w, p, req) && IsWritten(w, w', req))
  }

  lemma ReadStep(w: World, p: nat, req: Request)
    requires p < |w.procs| && InCall(w.procs[p], req) && !w.procs[p].CompareAndSet?
    ensures var w' := Transition(w, p, w.procs[p]); |w'.procs| == |w.procs| && CallMoves(w, w', p, req)
    ensures var w' := Transition(w, p, w.procs[p]); SameStore(w, w') && Owes(w'.procs[p]).None?
  {
  }

  lemma WriteStep(w: World, p: nat, req: Request)
    requires p < |w.procs| && w.procs[p].CompareAndSet? && w.procs[p].req == req
    ensures var w' := Transition(w, p, w.procs[p]); |w'.procs| == |w.procs| && CallMoves(w, w', p, req)
    ensures var w' := Transition(w, p, w.procs[p]);
      if Winning(w, p, req) then IsWritten(w, w', req) && Owes(w'.procs[p]) == Some((req.id, req.Goal()))
      else SameStore(w, w') && Owes(w'.procs[p]).None?
  {
  }

  /** A turn of a process inside a transition, with the fault spelt out. */
  function Transited(w: World, p: nat, fault: Fault): World
    requires p < |w.procs| && |Transition(w, p, w.procs[p]).procs| == |w.procs|
  {
    if fault == NoFault then Transition(w, p, w.procs[p])
    else if fault == Before then Thrown(w, p)
    else Thrown(Transition(w, p, w.procs[p]), p)
  }

  lemma AttemptedProc(c: Chain, w: World, p: nat, now: int, horizon: Horizon, fault: Fault)
    requires p < |w.procs|
    ensures var w', moved := Attempted(c, w, p, now, horizon, fault), Move(c, w, p, now, horizon);
      && p < |w'.procs|
      && w'.procs[p] ==
        if fault == NoFault || !CanFail(w.procs[p]) then moved.procs[p]
        else DatabaseError(Owes(if fault == Before then w.procs[p] else moved.procs[p]))
  {
  }

  lemma AttemptedTransits(c: Chain, w: World, p: nat, now: int, horizon: Horizon, fault: Fault)
    requires p < |w.procs| && IsTransiting(w.procs[p])
    ensures |Transition(w, p, w.procs[p]).procs| == |w.procs|
    ensures Attempted(c, w, p, now, horizon, fault) == Transited(w, p, fault)
  {
    assert Move(c, w, p, now, horizon) == Transition(w, p, w.procs[p]);
  }

  /** A call that has not written goes on without writing, wins, finds its goal reached, or stops without writing. */
  lemma CallStep(c: Chain, w: World, p: nat, now: int, horizon: Horizon, fault: Fault, req: Request)
    requires p < |w.procs| && InCall(w.procs[p], req)
    ensures var w' := Attempted(c, w, p, now, horizon, fault); |w'.procs| == |w.procs| && CallMoves(w, w', p, req)
  {
    AttemptedTransits(c, w, p, now, horizon, fault);
    if w.procs[p].CompareAndSet? {
      WriteStep(w, p, req);
    } else {
      ReadStep(w, p, req);
    }
  }

  /** What one turn of a winner that has not logged does: it goes on to log, or gives up with an error. */
  ghost predicate WonMoves(w: World, w': World, p: nat, req: Request)
    requires p < |w'.procs|
  {
    || (HasWon(w'.procs[p], req) && SameStore(w, w'))
    || ((IsPast(w'.procs[p], req) || HasBroken(w'.procs[p])) && w'.payments == w.payments && Logged(w', req.id, req.Goal()))
  }

  lemma WonStep(c: Chain, w: World, p: nat, now: int, horizon: Horizon, fault: Fault, req: Request)
    requires Inv(w) && p < |w.procs| && HasWon(w.procs[p], req)
    ensures var w' := Attempted(c, w, p, now, horizon, fault); |w'.procs| == |w.procs| && WonMoves(w, w', p, req)
  {
    if w.procs[p].Reload? {
      ReloadStep(w, p, req);
      ReloadMoves(c, w, p, now, horizon, fault, req);
    } else if w.procs[p].EmitEvent? {
      EmitStep(w, p, req);
      EmitMoves(c, w, p, now, horizon, fault, req);
    } else {
      OverStep(c, w, p, now, horizon, fault);
    }
  }

  lemma ReloadMoves(c: Chain, w: World, p: nat, now: int, horizon: Horizon, fault: Fault, req: Request)
    requires p < |w.procs| && w.procs[p].Reload? && w.procs[p].req == req
    requires var w' := Transition(w, p, w.procs[p]);
      |w'.procs| == |w.procs| && SameStore(w, w') && w'.procs[p].EmitEvent? && w'.procs[p].req == req
    ensures var w' := Attempted(c, w, p, now, horizon, fault); |w'.procs| == |w.procs| && WonMoves(w, w', p, req)
  {
    AttemptedTransits(c, w, p, now, horizon, fault);
  }

  lemma EmitMoves(c: Chain, w: World, p: nat, now: int, horizon: Horizon, fault: Fault, req: Request)
    requires p < |w.procs| && w.procs[p].EmitEvent? && w.procs[p].req == req
    requires var w' := Transition(w, p, w.procs[p]);
      |w'.procs| == |w.procs| && IsPast(w'.procs[p], req) && w'.payments == w.payments && Logged(w', req.id, req.Goal())
    ensures var w' := Attempted(c, w, p, now, horizon, fault); |w'.procs| == |w.procs| && WonMoves(w, w', p, req)
  {
    AttemptedTransits(c, w, p, now, horizon, fault);
    var w' := Transition(w, p, w.procs[p]);
    var i :| 0 <= i < |w'.events| && w'.events[i].paymentId == req.id && w'.events[i].kind == req.Goal();
    assert Thrown(w', p).events[i] == w'.events[i];
  }

  lemma ReloadStep(w: World, p: nat, req: Request)
    requires Inv(w) && p < |w.procs| && w.procs[p].Reload? && w.procs[p].req == req
    ensures req.id in w.payments
    ensures var w' := Transition(w, p, w.procs[p]); p < |w'.procs| && SameStore(w, w') && w'.procs[p].EmitEvent? && w'.procs[p].req == req
  {
    assert Owes(w.procs[p]) == Some((req.id, req.Goal()));
  }

  lemma EmitStep(w: World, p: nat, req: Request)
    requires Inv(w) && p < |w.procs| && w.procs[p].EmitEvent? && w.procs[p].req == req
    ensures var w' := Transition(w, p, w.procs[p]);
      p < |w'.procs| && IsPast(w'.procs[p], req) && w'.payments == w.payments && Logged(w', req.id, req.Goal())
  {
    EmitEventMove(w, p);
    assert ProcOk(w, w.procs[p]);
    var w' := Transition(w, p, w.procs[p]);
    assert w'.events[|w.events|].paymentId == req.id && w'.events[|w.events|].kind == req.Goal();
  }

  /** Past the transition only the link is written, which is always there. */
  ghost predicate PastMoves(w: World, w': World, p: nat, req: Request)
    requires p < |w'.procs|
  {
    w'.payments == w.payments && w'.events == w.events && (IsPast(w'.procs[p], req) || HasBroken(w'.procs[p]))
  }

  lemma PastStep(c: Chain, w: World, p: nat, now: int, horizon: Horizon, fault: Fault, req: Request)
    requires Inv(w) && p < |w.procs| && IsPast(w.procs[p], req)
    ensures var w' := Attempted(c, w, p, now, horizon, fault);
      |w'.procs| == |w.procs| && PastMoves(w, w', p, req) && (fault == NoFault ==> IsPast(w'.procs[p], req))
  {
    if w.procs[p].SyncLink? {
      LinkIsThere(w, p);
      SyncAttempt(c, w, p, now, horizon, fault, req);
    } else {
      OverStep(c, w, p, now, horizon, fault);
    }
  }

  lemma SyncAttempt(c: Chain, w: World, p: nat, now: int, horizon: Horizon, fault: Fault, req: Request)
    requires p < |w.procs| && w.procs[p].SyncLink? && w.procs[p].req == req && w.procs[p].row.linkId in w.links
    ensures var w' := Attempted(c, w, p, now, horizon, fault);
      |w'.procs| == |w.procs| && PastMoves(w, w', p, req) && (fault == NoFault ==> IsPast(w'.procs[p], req))
  {
    SyncStep(c, w, p, now, horizon, req);
    AttemptedSyncs(c, w, p, now, horizon, fault);
  }

  lemma AttemptedSyncs(c: Chain, w: World, p: nat, now: int, horizon: Horizon, fault: Fault)
    requires p < |w.procs| && w.procs[p].SyncLink?
    ensures var w' := Move(c, w, p, now, horizon);
      && |w'.procs| == |w.procs|
      && (|| Attempted(c, w, p, now, horizon, fault) == w'
          || (fault != NoFault && Attempted(c, w, p, now, horizon, fault) == Thrown(w, p))
          || (fault != NoFault && Attempted(c, w, p, now, horizon, fault) == Thrown(w', p)))
  {
  }

  lemma OverStep(c: Chain, w: World, p: nat, now: int, horizon: Horizon, fault: Fault)
    requires p < |w.procs| && IsOver(w.procs[p])
    ensures Attempted(c, w, p, now, horizon, fault) == w
  {
  }

  lemma LinkIsThere(w: World, p: nat)
    requires Inv(w) && p < |w.procs| && w.procs[p].SyncLink?
    ensures w.procs[p].row.linkId in w.links
  {
    assert ProcOk(w, w.procs[p]);
    assert RowOk(w, w.procs[p].row.id);
  }

  lemma SyncStep(c: Chain, w: World, p: nat, now: int, horizon: Horizon, req: Request)
    requires p < |w.procs| && w.procs[p].SyncLink? && w.procs[p].req == req && w.procs[p].row.linkId in w.links
    ensures var w' := Move(c, w, p, now, horizon);
      w'.payments == w.payments && w'.events == w.events && p < |w'.procs| && IsPast(w'.procs[p], req)
  {
  }

  // ---------- over a run ----------

  predicate Own(schedule: seq<Turn>, p: nat, k: nat)
    requires k < |schedule|
  {
    schedule[k].Go? && schedule[k].proc == p
  }

  /** Process `p` wrote nothing from turn `i` up to turn `j`. */
  ghost predicate Quiet(ws: seq<World>, schedule: seq<Turn>, p: nat, i: nat, j: nat)
    requires |ws| == |schedule| + 1 && i <= j <= |schedule|
  {
    forall k | i <= k < j && Own(schedule, p, k) :: SameStore(ws[k], ws[k + 1])
  }

  /** Turn `k` is the winning compare-and-set of this call. */
  ghost predicate WinsAt(ws: seq<World>, schedule: seq<Turn>, p: nat, req: Request, k: nat)
    requires |ws| == |schedule| + 1 && k < |schedule|
  {
    Own(schedule, p, k) && Winning(ws[k], p, req) && IsWritten(ws[k], ws[k + 1], req)
  }

  /** From turn `i` up to `j` the call wrote the store in exactly one of its turns, and that was its compare-and-set. */
  ghost predicate WroteOnce(ws: seq<World>, schedule: seq<Turn>, p: nat, req: Request, i: nat, j: nat)
    requires |ws| == |schedule| + 1 && i <= j <= |schedule|
  {
    exists k :: i <= k < j && WinsAt(ws, schedule, p, req, k) && Quiet(ws, schedule, p, i, k) && Quiet(ws, schedule, p, k + 1, j)
  }

  /** Payment rows were written by this call at most once, and only by its compare-and-set. */
  ghost predicate RowsOnce(ws: seq<World>, schedule: seq<Turn>, p: nat, req: Request, i: nat, j: nat)
    requires |ws| == |schedule| + 1 && i <= j <= |schedule|
  {
    && (forall k | i <= k < j && Own(schedule, p, k) ::
          ws[k + 1].payments == ws[k].payments || WinsAt(ws, schedule, p, req, k))
    && (forall k, l | i <= k < l < j :: !(WinsAt(ws, schedule, p, req, k) && WinsAt(ws, schedule, p, req, l)))
  }

  /** At some moment from `i` to `j` the payment showed the status the call asked for. */
  ghost predicate Saw(ws: seq<World>, schedule: seq<Turn>, req: Request, i: nat, j: nat)
    requires |ws| == |schedule| + 1 && i <= j <= |schedule|
  {
    exists k :: i <= k <= j && Shows(ws[k], req)
  }

  ghost predicate Won(ws: seq<World>, schedule: seq<Turn>, p: nat, req: Request, i: nat, j: nat)
    requires |ws| == |schedule| + 1 && i <= j <= |schedule|
  {
    exists k :: i <= k < j && WinsAt(ws, schedule, p, req, k)
  }

  /** The goal was seen, and if this call made the change its event is in the log. */
  ghost predicate SawAndLogged(ws: seq<World>, schedule: seq<Turn>, p: nat, req: Request, i: nat, j: nat)
    requires |ws| == |schedule| + 1 && i <= j <= |schedule|
  {
    Saw(ws, schedule, req, i, j) && (Won(ws, schedule, p, req, i, j) ==> Logged(ws[j], req.id, req.Goal()))
  }

  ghost predicate PhaseOk(ws: seq<World>, schedule: seq<Turn>, p: nat, req: Request, i: nat, j: nat, pc: Pc)
    requires |ws| == |schedule| + 1 && i <= j <= |schedule|
  {
    || ((InCall(pc, req) || IsRefused(pc)) && Quiet(ws, schedule, p, i, j))
    || (HasWon(pc, req) && WroteOnce(ws, schedule, p, req, i, j))
    || (IsPast(pc, req) && SawAndLogged(ws, schedule, p, req, i, j))
    || (HasBroken(pc) && (Quiet(ws, schedule, p, i, j) || SawAndLogged(ws, schedule, p, req, i, j)))
  }

  ghost predicate CallOk(ws: seq<World>, schedule: seq<Turn>, p: nat, req: Request, i: nat, j: nat)
    requires |ws| == |schedule| + 1 && i <= j <= |schedule|
  {
    && p < |ws[j].procs|
    && PhaseOk(ws, schedule, p, req, i, j, ws[j].procs[p])
    && RowsOnce(ws, schedule, p, req, i, j)
  }

  lemma WinChanges(ws: seq<World>, schedule: seq<Turn>, p: nat, req: Request, k: nat)
    requires |ws| == |schedule| + 1 && k < |schedule| && WinsAt(ws, schedule, p, req, k)
    ensures ws[k + 1].payments != ws[k].payments && Shows(ws[k + 1], req)
  {
    var w, w' := ws[k], ws[k + 1];
    assert w'.payments[req.id].status == req.Goal() != w.payments[req.id].status;
  }

  lemma QuietHasNotWon(ws: seq<World>, schedule: seq<Turn>, p: nat, req: Request, i: nat, j: nat)
    requires |ws| == |schedule| + 1 && i <= j <= |schedule| && Quiet(ws, schedule, p, i, j)
    ensures !Won(ws, schedule, p, req, i, j)
  {
    forall k | i <= k < j ensures !WinsAt(ws, schedule, p, req, k) {
      if WinsAt(ws, schedule, p, req, k) {
        WinChanges(ws, schedule, p, req, k);
      }
    }
  }

  lemma LogGrows(c: Chain, w: World, t: Turn)
    ensures w.events <= Step(c, w, t).events
  {
    if t.Go? && t.proc < |w.procs| && IsTransiting(w.procs[t.proc]) {
      LogGrowsInCall(w, t.proc);
    }
  }

  lemma LogGrowsInCall(w: World, p: nat)
    requires p < |w.procs|
    ensures w.events <= Transition(w, p, w.procs[p]).events
  {
  }

  // ---------- one more turn ----------

  /** Another process's turn leaves the phase as it was. */
  lemma OtherAdvances(c: Chain, ws: seq<World>, schedule: seq<Turn>, p: nat, req: Request, i: nat, j: nat)
    requires IsRun(c, ws, schedule) && i <= j < |schedule| && CallOk(ws, schedule, p, req, i, j) && !Own(schedule, p, j)
    ensures CallOk(ws, schedule, p, req, i, j + 1)
  {
    NextInRun(c, ws, schedule, j);
    Bystander(c, ws[j], schedule[j], p);
    LogGrows(c, ws[j], schedule[j]);
    PhaseStays(ws, schedule, p, req, i, j);
  }

  /** A turn in which the call writes nothing and does not move leaves its phase as it was. */
  lemma PhaseStays(ws: seq<World>, schedule: seq<Turn>, p: nat, req: Request, i: nat, j: nat)
    requires |ws| == |schedule| + 1 && i <= j < |schedule| && CallOk(ws, schedule, p, req, i, j)
    requires p < |ws[j + 1].procs| && ws[j + 1].procs[p] == ws[j].procs[p] && ws[j].events <= ws[j + 1].events
    requires Own(schedule, p, j) ==> SameStore(ws[j], ws[j + 1])
    ensures CallOk(ws, schedule, p, req, i, j + 1)
  {
    RowsUntouched(ws, schedule, p, req, i, j);
    if HasWon(ws[j].procs[p], req) {
      WroteOnceStays(ws, schedule, p, req, i, j);
    }
    if SawAndLogged(ws, schedule, p, req, i, j) {
      SawStays(ws, schedule, p, req, i, j);
    }
  }

  lemma Bystander(c: Chain, w: World, t: Turn, p: nat)
    requires p < |w.procs| && !(t.Go? && t.proc == p)
    ensures p < |Step(c, w, t).procs| && Step(c, w, t).procs[p] == w.procs[p]
  {
    if t.Go? && t.proc < |w.procs| {
      OnlyOneAttempts(c, w, t.proc, t.now, t.horizon, t.fault);
    }
  }

  /** A turn that is not this call's winning write adds nothing to what the call wrote to rows. */
  lemma RowsUntouched(ws: seq<World>, schedule: seq<Turn>, p: nat, req: Request, i: nat, j: nat)
    requires |ws| == |schedule| + 1 && i <= j < |schedule| && RowsOnce(ws, schedule, p, req, i, j)
    requires Own(schedule, p, j) ==> ws[j + 1].payments == ws[j].payments
    ensures RowsOnce(ws, schedule, p, req, i, j + 1) && !WinsAt(ws, schedule, p, req, j)
  {
    if WinsAt(ws, schedule, p, req, j) {
      WinChanges(ws, schedule, p, req, j);
      assert false;
    }
  }

  lemma WroteOnceStays(ws: seq<World>, schedule: seq<Turn>, p: nat, req: Request, i: nat, j: nat)
    requires |ws| == |schedule| + 1 && i <= j < |schedule| && WroteOnce(ws, schedule, p, req, i, j)
    requires Own(schedule, p, j) ==> SameStore(ws[j], ws[j + 1])
    ensures WroteOnce(ws, schedule, p, req, i, j + 1)
  {
    var k :| i <= k < j && WinsAt(ws, schedule, p, req, k) && Quiet(ws, schedule, p, i, k) && Quiet(ws, schedule, p, k + 1, j);
    assert Quiet(ws, schedule, p, k + 1, j + 1);
  }

  lemma SawStays(ws: seq<World>, schedule: seq<Turn>, p: nat, req: Request, i: nat, j: nat)
    requires |ws| == |schedule| + 1 && i <= j < |schedule| && SawAndLogged(ws, schedule, p, req, i, j)
    requires !WinsAt(ws, schedule, p, req, j) && ws[j].events <= ws[j + 1].events
    ensures SawAndLogged(ws, schedule, p, req, i, j + 1)
  {
    SawLater(ws, schedule, req, i, j);
    if Won(ws, schedule, p, req, i, j + 1) {
      var k :| i <= k < j + 1 && WinsAt(ws, schedule, p, req, k);
      assert Won(ws, schedule, p, req, i, j);
      LoggedStays(ws[j], ws[j + 1], req.id, req.Goal());
    }
  }

  lemma LoggedStays(w: World, w': World, id: nat, s: Status)
    requires w.events <= w'.events && Logged(w, id, s)
    ensures Logged(w', id, s)
  {
    var e :| 0 <= e < |w.events| && w.events[e].paymentId == id && w.events[e].kind == s;
    assert w'.events[e] == w.events[e];
  }

  lemma SawLater(ws: seq<World>, schedule: seq<Turn>, req: Request, i: nat, j: nat)
    requires |ws| == |schedule| + 1 && i <= j < |schedule| && (Saw(ws, schedule, req, i, j) || Shows(ws[j], req))
    ensures Saw(ws, schedule, req, i, j + 1)
  {
  }

  /** Turn `j` is the process's own, in a store of the run. */
  ghost predicate OwnTurn(c: Chain, ws: seq<World>, schedule: seq<Turn>, p: nat, j: nat) {
    && |ws| == |schedule| + 1 && j < |schedule| && Own(schedule, p, j) && p < |ws[j].procs| && Inv(ws[j])
    && ws[j + 1] == Attempted(c, ws[j], p, schedule[j].now, schedule[j].horizon, schedule[j].fault)
  }

  lemma OwnTurnInRun(c: Chain, ws: seq<World>, schedule: seq<Turn>, p: nat, j: nat)
    requires IsRun(c, ws, schedule) && j < |schedule| && Own(schedule, p, j) && p < |ws[j].procs|
    ensures OwnTurn(c, ws, schedule, p, j)
  {
    NextInRun(c, ws, schedule, j);
  }

  /** The call's own turn before it has written. */
  lemma CallAdvances(c: Chain, ws: seq<World>, schedule: seq<Turn>, p: nat, req: Request, i: nat, j: nat)
    requires OwnTurn(c, ws, schedule, p, j) && i <= j && CallOk(ws, schedule, p, req, i, j) && InCall(ws[j].procs[p], req)
    ensures CallOk(ws, schedule, p, req, i, j + 1)
  {
    CallIsQuiet(ws, schedule, p, req, i, j);
    CallTurn(c, ws, schedule, p, req, j);
    CallConcludes(ws, schedule, p, req, i, j);
  }

  lemma CallIsQuiet(ws: seq<World>, schedule: seq<Turn>, p: nat, req: Request, i: nat, j: nat)
    requires |ws| == |schedule| + 1 && i <= j <= |schedule| && CallOk(ws, schedule, p, req, i, j) && InCall(ws[j].procs[p], req)
    ensures Quiet(ws, schedule, p, i, j)
  {
  }

  lemma CallTurn(c: Chain, ws: seq<World>, schedule: seq<Turn>, p: nat, req: Request, j: nat)
    requires OwnTurn(c, ws, schedule, p, j) && InCall(ws[j].procs[p], req)
    ensures p < |ws[j + 1].procs| && CallMoves(ws[j], ws[j + 1], p, req)
  {
    var t := schedule[j];
    CallStep(c, ws[j], p, t.now, t.horizon, t.fault, req);
  }

  lemma CallConcludes(ws: seq<World>, schedule: seq<Turn>, p: nat, req: Request, i: nat, j: nat)
    requires |ws| == |schedule| + 1 && i <= j < |schedule| && Quiet(ws, schedule, p, i, j) &&
      RowsOnce(ws, schedule, p, req, i, j) && Own(schedule, p, j)
    requires var w, w' := ws[j], ws[j + 1]; p < |w'.procs| && CallMoves(w, w', p, req)
    ensures CallOk(ws, schedule, p, req, i, j + 1)
  {
    if SameStore(ws[j], ws[j + 1]) {
      UnwrittenAdvances(ws, schedule, p, req, i, j);
    } else {
      WinAdvances(ws, schedule, p, req, i, j);
    }
  }

  lemma UnwrittenAdvances(ws: seq<World>, schedule: seq<Turn>, p: nat, req: Request, i: nat, j: nat)
    requires |ws| == |schedule| + 1 && i <= j < |schedule| && Quiet(ws, schedule, p, i, j) && RowsOnce(ws, schedule, p, req, i, j)
    requires var w, w' := ws[j], ws[j + 1];
      SameStore(w, w') && p < |w'.procs| && CallMoves(w, w', p, req) && !HasWon(w'.procs[p], req)
    ensures CallOk(ws, schedule, p, req, i, j + 1)
  {
    RowsUntouched(ws, schedule, p, req, i, j);
    assert Quiet(ws, schedule, p, i, j + 1);
    QuietHasNotWon(ws, schedule, p, req, i, j + 1);
    if IsPast(ws[j + 1].procs[p], req) {
      SawLater(ws, schedule, req, i, j);
    }
  }

  lemma WinAdvances(ws: seq<World>, schedule: seq<Turn>, p: nat, req: Request, i: nat, j: nat)
    requires |ws| == |schedule| + 1 && i <= j < |schedule| && Quiet(ws, schedule, p, i, j) && RowsOnce(ws, schedule, p, req, i, j)
    requires WinsAt(ws, schedule, p, req, j)
    requires var w' := ws[j + 1]; p < |w'.procs| && HasWon(w'.procs[p], req)
    ensures CallOk(ws, schedule, p, req, i, j + 1)
  {
    QuietHasNotWon(ws, schedule, p, req, i, j);
    assert Quiet(ws, schedule, p, j + 1, j + 1);
    assert WroteOnce(ws, schedule, p, req, i, j + 1);
  }

  /** The winner's own turn before its event is logged. */
  lemma WonAdvances(c: Chain, ws: seq<World>, schedule: seq<Turn>, p: nat, req: Request, i: nat, j: nat)
    requires OwnTurn(c, ws, schedule, p, j) && i <= j && CallOk(ws, schedule, p, req, i, j)
    requires HasWon(ws[j].procs[p], req)
    ensures CallOk(ws, schedule, p, req, i, j + 1)
  {
    var t := schedule[j];
    WonStep(c, ws[j], p, t.now, t.horizon, t.fault, req);
    WonConcludes(ws, schedule, p, req, i, j);
  }

  lemma WonConcludes(ws: seq<World>, schedule: seq<Turn>, p: nat, req: Request, i: nat, j: nat)
    requires |ws| == |schedule| + 1 && i <= j < |schedule| && WroteOnce(ws, schedule, p, req, i, j) &&
      RowsOnce(ws, schedule, p, req, i, j) && Own(schedule, p, j)
    requires var w, w' := ws[j], ws[j + 1]; p < |w'.procs| && WonMoves(w, w', p, req)
    ensures CallOk(ws, schedule, p, req, i, j + 1)
  {
    var w' := ws[j + 1];
    RowsUntouched(ws, schedule, p, req, i, j);
    if HasWon(w'.procs[p], req) {
      WroteOnceStays(ws, schedule, p, req, i, j);
    } else {
      var k :| i <= k < j && WinsAt(ws, schedule, p, req, k);
      WinChanges(ws, schedule, p, req, k);
      assert Saw(ws, schedule, req, i, j + 1);
    }
  }

  /** The call's own turn past the transition. */
  lemma PastAdvances(c: Chain, ws: seq<World>, schedule: seq<Turn>, p: nat, req: Request, i: nat, j: nat)
    requires OwnTurn(c, ws, schedule, p, j) && i <= j && CallOk(ws, schedule, p, req, i, j)
    requires IsPast(ws[j].procs[p], req)
    ensures CallOk(ws, schedule, p, req, i, j + 1)
  {
    var t := schedule[j];
    PastPhase(ws, schedule, p, req, i, j);
    PastStep(c, ws[j], p, t.now, t.horizon, t.fault, req);
    PastConcludes(ws, schedule, p, req, i, j);
  }

  lemma PastPhase(ws: seq<World>, schedule: seq<Turn>, p: nat, req: Request, i: nat, j: nat)
    requires |ws| == |schedule| + 1 && i <= j < |ws| && p < |ws[j].procs|
    requires CallOk(ws, schedule, p, req, i, j) && IsPast(ws[j].procs[p], req)
    ensures SawAndLogged(ws, schedule, p, req, i, j) && RowsOnce(ws, schedule, p, req, i, j)
  {
  }

  lemma PastConcludes(ws: seq<World>, schedule: seq<Turn>, p: nat, req: Request, i: nat, j: nat)
    requires |ws| == |schedule| + 1 && i <= j < |schedule|
    requires SawAndLogged(ws, schedule, p, req, i, j) && RowsOnce(ws, schedule, p, req, i, j)
    requires p < |ws[j + 1].procs| && PastMoves(ws[j], ws[j + 1], p, req)
    ensures CallOk(ws, schedule, p, req, i, j + 1)
  {
    RowsUntouched(ws, schedule, p, req, i, j);
    SawStays(ws, schedule, p, req, i, j);
  }

  /** A call that is over takes no more turns. */
  lemma OverAdvances(c: Chain, ws: seq<World>, schedule: seq<Turn>, p: nat, req: Request, i: nat, j: nat)
    requires OwnTurn(c, ws, schedule, p, j) && i <= j && CallOk(ws, schedule, p, req, i, j)
    requires IsRefused(ws[j].procs[p]) || HasBroken(ws[j].procs[p])
    ensures CallOk(ws, schedule, p, req, i, j + 1)
  {
    var t := schedule[j];
    OverStep(c, ws[j], p, t.now, t.horizon, t.fault);
    PhaseStays(ws, schedule, p, req, i, j);
  }

  lemma OwnAdvances(c: Chain, ws: seq<World>, schedule: seq<Turn>, p: nat, req: Request, i: nat, j: nat)
    requires OwnTurn(c, ws, schedule, p, j) && i <= j && CallOk(ws, schedule, p, req, i, j)
    ensures CallOk(ws, schedule, p, req, i, j + 1)
  {
    var pc := ws[j].procs[p];
    if InCall(pc, req) {
      CallAdvances(c, ws, schedule, p, req, i, j);
    } else if HasWon(pc, req) {
      WonAdvances(c, ws, schedule, p, req, i, j);
    } else if IsPast(pc, req) {
      PastAdvances(c, ws, schedule, p, req, i, j);
    } else {
      OverAdvances(c, ws, schedule, p, req, i, j);
    }
  }

  lemma OneMoreTurn(c: Chain, ws: seq<World>, schedule: seq<Turn>, p: nat, req: Request, i: nat, j: nat)
    requires IsRun(c, ws, schedule) && i <= j < |schedule| && CallOk(ws, schedule, p, req, i, j)
    ensures CallOk(ws, schedule, p, req, i, j + 1)
  {
    if Own(schedule, p, j) {
      OwnTurnInRun(c, ws, schedule, p, j);
      OwnAdvances(c, ws, schedule, p, req, i, j);
    } else {
      OtherAdvances(c, ws, schedule, p, req, i, j);
    }
  }

  lemma CallBegins(ws: seq<World>, schedule: seq<Turn>, p: nat, req: Request, i: nat)
    requires |ws| == |schedule| + 1 && i <= |schedule| && p < |ws[i].procs| && InCall(ws[i].procs[p], req)
    ensures CallOk(ws, schedule, p, req, i, i)
  {
  }

  lemma {:induction false} CallPhases(c: Chain, ws: seq<World>, schedule: seq<Turn>, p: nat, req: Request, i: nat, j: nat)
    requires IsRun(c, ws, schedule) && i <= j <= |schedule| && p < |ws[i].procs| && InCall(ws[i].procs[p], req)
    ensures CallOk(ws, schedule, p, req, i, j)
    decreases j - i
  {
    if i == j {
      CallBegins(ws, schedule, p, req, i);
    } else {
      CallPhases(c, ws, schedule, p, req, i, j - 1);
      OneMoreTurn(c, ws, schedule, p, req, i, j - 1);
    }
  }

  /**
   * How a call of `transition` ends, whatever fails and whatever other processes do. If it returns, its goal was held
   * at some moment during it, even when another process made the change. If it is refused, it wrote nothing at all. If
   * an operation fails, payment rows were written at most once, by its compare-and-set: with the event still owed it
   * wrote exactly that and nothing else; otherwise it wrote nothing, or its goal was held and any change of its own is
   * logged.
   */
  lemma CallOutcomes(c: Chain, ws: seq<World>, schedule: seq<Turn>, p: nat, req: Request, i: nat, j: nat)
    requires IsRun(c, ws, schedule) && i <= j <= |schedule| && p < |ws[i].procs|
    requires ws[i].procs[p].Read? && ws[i].procs[p].req == req
    ensures p < |ws[j].procs| && RowsOnce(ws, schedule, p, req, i, j)
    ensures var pc := ws[j].procs[p];
      && (pc.Returned? ==> SawAndLogged(ws, schedule, p, req, i, j))
      && (pc.Refused? || pc.Conflicted? ==> Quiet(ws, schedule, p, i, j))
      && (pc.DatabaseError? && pc.unlogged.Some? ==>
            pc.unlogged == Some((req.id, req.Goal())) && WroteOnce(ws, schedule, p, req, i, j)
            && !Logged(ws[j], req.id, req.Goal()))
      && (pc == DatabaseError(None) ==> Quiet(ws, schedule, p, i, j) || SawAndLogged(ws, schedule, p, req, i, j))
  {
    CallPhases(c, ws, schedule, p, req, i, j);
    if ws[j].procs[p].DatabaseError? {
      StoreInRun(c, ws, schedule, j);
      GivenUp(ws[j], p);
    }
  }

  lemma GivenUp(w: World, p: nat)
    requires Inv(w) && p < |w.procs| && w.procs[p].DatabaseError?
    ensures w.procs[p].unlogged.Some? ==> !Logged(w, w.procs[p].unlogged.value.0, w.procs[p].unlogged.value.1)
  {
    assert Owes(w.procs[p]) == w.procs[p].unlogged;
  }

  /**
   * Without faults in its own turns a call cannot stop between its compare-and-set and its return: the row, the event
   * slot and the link are all there.
   */
  lemma OnlyFaultsStopAWinner(c: Chain, w: World, p: nat, now: int, horizon: Horizon, req: Request)
    requires Inv(w) && p < |w.procs| && (HasWon(w.procs[p], req) || IsPast(w.procs[p], req)) && !w.procs[p].DatabaseError?
    ensures var w' := Attempted(c, w, p, now, horizon, NoFault);
      p < |w'.procs| && (HasWon(w'.procs[p], req) || IsPast(w'.procs[p], req)) && !w'.procs[p].DatabaseError?
  {
    if HasWon(w.procs[p], req) {
      WonMovesOn(c, w, p, now, horizon, req);
    } else {
      PastStep(c, w, p, now, horizon, NoFault, req);
    }
  }

  lemma WonMovesOn(c: Chain, w: World, p: nat, now: int, horizon: Horizon, req: Request)
    requires Inv(w) && p < |w.procs| && (w.procs[p].Reload? || w.procs[p].EmitEvent?) && w.procs[p].req == req
    ensures var w' := Attempted(c, w, p, now, horizon, NoFault);
      p < |w'.procs| && (HasWon(w'.procs[p], req) || IsPast(w'.procs[p], req)) && !w'.procs[p].DatabaseError?
  {
    AttemptedTransits(c, w, p, now, horizon, NoFault);
    if w.procs[p].Reload? { ReloadStep(w, p, req); } else { EmitStep(w, p, req); }
  }

  lemma {:induction false} OverStays(c: Chain, w: World, more: seq<Turn>, p: nat)
    requires p < |w.procs| && IsOver(w.procs[p])
    ensures p < |Run(c, w, more).procs| && Run(c, w, more).procs[p] == w.procs[p]
    decreases |more|
  {
    if more != [] {
      var t := more[0];
      if t.Go? && t.proc == p {
        OverStep(c, w, p, t.now, t.horizon, t.fault);
      } else {
        Bystander(c, w, t, p);
      }
      OverStays(c, Step(c, w, t), more[1..], p);
    }
  }

  /** An event given up by a process that threw after its compare-and-set is never logged, by anyone. */
  lemma MissingForEver(c: Chain, schedule: seq<Turn>, more: seq<Turn>, p: nat)
    requires var w := Run(c, INIT, schedule); p < |w.procs| && w.procs[p].DatabaseError? && w.procs[p].unlogged.Some?
    ensures var key := Run(c, INIT, schedule).procs[p].unlogged.value;
      !Logged(Run(c, Run(c, INIT, schedule), more), key.0, key.1)
  {
    var w := Run(c, INIT, schedule);
    InitOk();
    RunKeeps(c, INIT, schedule);
    RunKeeps(c, w, more);
    OverStays(c, w, more, p);
    GivenUp(Run(c, w, more), p);
  }
}
