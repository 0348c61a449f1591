/** Events that are never logged: exactly which failures lose one, and a run in which one is lost. */
module PaymentLosses {
  import opened Wrappers
  import opened Lifecycle
  import opened PaymentMachine
  import opened PaymentInvariant
  import opened PaymentSafety
  import opened PaymentCalls
  import opened PaymentSnapshots

  /** The payment and status whose event the process's next operation makes due, or brings nearer. */
  function AtStake(w: World, p: nat): Option<(nat, Status)>
    requires p < |w.procs|
  {
    match w.procs[p]
    case CompareAndSet(req, _, _) => if CasMatches(w, req) && !CasConflicts(w, req) then Some((req.id, req.Goal())) else None
    case InsertPayment(d) => if d.id in w.payments || LinkTaken(w, d.linkId) then None else Some((d.id, Created))
    case EmitCreated(_) => Owes(w.procs[p])
    case Reload(_, _, _) => Owes(w.procs[p])
    case EmitEvent(_, _, _) => Owes(w.procs[p])
    case _ => None
  }

  /** The failures that lose it: after the change, at the reload, and before the insert of the event. */
  predicate Loses(pc: Pc, fault: Fault) {
    match pc
    case CompareAndSet(_, _, _) => fault == After
    case InsertPayment(_) => fault == After
    case Reload(_, _, _) => fault != NoFault
    case EmitEvent(_, _, _) => fault == Before
    case EmitCreated(_) => fault == Before
    case _ => false
  }

  /** This turn loses the event of this payment and status. */
  predicate LosingTurn(w: World, t: Turn, key: (nat, Status)) {
    t.Go? && t.proc < |w.procs| && AtStake(w, t.proc) == Some(key) && Loses(w.procs[t.proc], t.fault)
  }

  // ---------- one turn ----------

  /** The event a process owes after an operation that succeeds. */
  function DebtAfter(w: World, p: nat): Option<(nat, Status)>
    requires p < |w.procs|
  {
    if w.procs[p].EmitEvent? || w.procs[p].EmitCreated? then None else AtStake(w, p)
  }

  /** The process does not throw by itself with a debt, and owes what was at stake until it has logged it. */
  predicate Owing(pc: Pc, debt: Option<(nat, Status)>) {
    Owes(pc) == debt && (pc.DatabaseError? ==> debt.None?)
  }

  lemma OwedIsHeld(w: World, p: nat)
    requires Inv(w) && p < |w.procs| && Owes(w.procs[p]).Some?
    ensures var key := Owes(w.procs[p]).value; HeldBy(w, key) && !Logged(w, key.0, key.1)
  {
  }

  lemma MovedOwing(c: Chain, w: World, p: nat, now: int, horizon: Horizon)
    requires Inv(w) && p < |w.procs| && !w.procs[p].DatabaseError?
    ensures Owing(Move(c, w, p, now, horizon).procs[p], DebtAfter(w, p))
  {
    var pc := w.procs[p];
    if IsCreating(pc) {
      CreationOwing(w, p);
    } else if IsTransiting(pc) {
      if pc.Reload? { OwedIsHeld(w, p); }
      TransitionOwing(w, p);
    } else if !pc.SyncLink? && !IsOver(pc) {
      PrepareOwing(c, w, pc, now, horizon);
    }
  }

  lemma CreationOwing(w: World, p: nat)
    requires p < |w.procs| && IsCreating(w.procs[p])
    ensures p < |Creation(w, p).procs| && Owing(Creation(w, p).procs[p], DebtAfter(w, p))
  {
  }

  lemma TransitionOwing(w: World, p: nat)
    requires p < |w.procs| && IsTransiting(w.procs[p]) && (w.procs[p].Reload? ==> w.procs[p].req.id in w.payments)
    ensures var w' := Transition(w, p, w.procs[p]); p < |w'.procs| && Owing(w'.procs[p], DebtAfter(w, p))
  {
  }

  lemma PrepareOwing(c: Chain, w: World, pc: Pc, now: int, horizon: Horizon)
    requires !IsCreating(pc) && !IsTransiting(pc) && !pc.SyncLink? && !IsOver(pc)
    ensures Owing(Prepare(c, w, pc, now, horizon), None)
  {
  }

  /** A process throws with this event owed exactly when its turn loses it. */
  lemma ThrowsWithDebtIff(c: Chain, w: World, p: nat, now: int, horizon: Horizon, fault: Fault, key: (nat, Status))
    requires Inv(w) && p < |w.procs| && !w.procs[p].DatabaseError?
    ensures var w' := Attempted(c, w, p, now, horizon, fault);
      p < |w'.procs| && (w'.procs[p] == DatabaseError(Some(key)) <==> AtStake(w, p) == Some(key) && Loses(w.procs[p], fault))
  {
    MovedOwing(c, w, p, now, horizon);
    AttemptedProc(c, w, p, now, horizon, fault);
    DebtIff(w, p, Move(c, w, p, now, horizon).procs[p], fault, key);
  }

  lemma DebtIff(w: World, p: nat, moved: Pc, fault: Fault, key: (nat, Status))
    requires p < |w.procs| && !w.procs[p].DatabaseError? && Owing(moved, DebtAfter(w, p))
    ensures (if fault == NoFault || !CanFail(w.procs[p]) then moved
             else DatabaseError(Owes(if fault == Before then w.procs[p] else moved))) == DatabaseError(Some(key))
      <==> AtStake(w, p) == Some(key) && Loses(w.procs[p], fault)
  {
  }

  // ---------- runs ----------

  ghost predicate GivenUpBy(w: World, key: (nat, Status)) {
    exists p :: 0 <= p < |w.procs| && w.procs[p] == DatabaseError(Some(key))
  }

  lemma GivenUpStepIff(c: Chain, w: World, t: Turn, key: (nat, Status))
    requires Inv(w)
    ensures GivenUpBy(Step(c, w, t), key) <==> GivenUpBy(w, key) || LosingTurn(w, t, key)
  {
    var w' := Step(c, w, t);
    if t.Go? && t.proc < |w.procs| {
      OthersStand(c, w, t);
      if w.procs[t.proc].DatabaseError? {
        OverStep(c, w, t.proc, t.now, t.horizon, t.fault);
      } else {
        ThrowsWithDebtIff(c, w, t.proc, t.now, t.horizon, t.fault, key);
        OneProcess(w, w', t.proc, key);
      }
    } else {
      Started(c, w, t, key);
    }
  }

  lemma Started(c: Chain, w: World, t: Turn, key: (nat, Status))
    requires !(t.Go? && t.proc < |w.procs|)
    ensures GivenUpBy(Step(c, w, t), key) <==> GivenUpBy(w, key)
  {
    var w' := Step(c, w, t);
    if GivenUpBy(w, key) {
      var p :| 0 <= p < |w.procs| && w.procs[p] == DatabaseError(Some(key));
      assert w'.procs[p] == w.procs[p];
    }
    if GivenUpBy(w', key) {
      var p :| 0 <= p < |w'.procs| && w'.procs[p] == DatabaseError(Some(key));
      assert p < |w.procs| && w.procs[p] == w'.procs[p];
    }
  }

  lemma OthersStand(c: Chain, w: World, t: Turn)
    requires t.Go? && t.proc < |w.procs|
    ensures var w' := Step(c, w, t);
      |w'.procs| == |w.procs| && forall q | 0 <= q < |w.procs| && q != t.proc :: w'.procs[q] == w.procs[q]
  {
    OnlyOneTurns(c, w, t.proc, t.now, t.horizon, t.fault);
  }

  lemma OneProcess(w: World, w': World, p: nat, key: (nat, Status))
    requires p < |w.procs| == |w'.procs| && !w.procs[p].DatabaseError?
    requires forall q | 0 <= q < |w.procs| && q != p :: w'.procs[q] == w.procs[q]
    ensures GivenUpBy(w', key) <==> GivenUpBy(w, key) || w'.procs[p] == DatabaseError(Some(key))
  {
    if GivenUpBy(w, key) {
      var q :| 0 <= q < |w.procs| && w.procs[q] == DatabaseError(Some(key));
      assert w'.procs[q] == w.procs[q];
    }
  }

  lemma {:induction false} GivenUpIff(c: Chain, schedule: seq<Turn>, key: (nat, Status))
    ensures GivenUpBy(Run(c, INIT, schedule), key) <==>
      exists k :: 0 <= k < |schedule| && LosingTurn(Run(c, INIT, schedule[..k]), schedule[k], key)
    decreases |schedule|
  {
    if schedule != [] {
      var n := |schedule| - 1;
      var s, t := schedule[..n], schedule[n];
      assert schedule == s + [t];
      RunOneMore(c, s, t);
      InitOk();
      RunKeeps(c, INIT, s);
      GivenUpStepIff(c, Run(c, INIT, s), t, key);
      GivenUpIff(c, s, key);
      assert forall k | 0 <= k < n :: schedule[..k] == s[..k] && schedule[k] == s[k];
    }
  }

  ghost predicate UnderWay(w: World, key: (nat, Status)) {
    exists p :: 0 <= p < |w.procs| && !w.procs[p].DatabaseError? && Owes(w.procs[p]) == Some(key)
  }

  /**
   * In every run a status that was held is without its event exactly if some turn lost it (the operation failed after the
   * change was made, at the reload, or before the event was inserted), or the process that made the change is still on
   * its way to log it.
   */
  lemma EventMissingIff(c: Chain, schedule: seq<Turn>, id: nat, s: Status)
    requires HeldBy(Run(c, INIT, schedule), (id, s))
    ensures var w := Run(c, INIT, schedule);
      !Logged(w, id, s) <==>
        UnderWay(w, (id, s)) || exists k :: 0 <= k < |schedule| && LosingTurn(Run(c, INIT, schedule[..k]), schedule[k], (id, s))
  {
    var w := Run(c, INIT, schedule);
    InitOk();
    RunKeeps(c, INIT, schedule);
    GivenUpIff(c, schedule, (id, s));
    DebtsDivide(w, (id, s));
  }

  lemma DebtsDivide(w: World, key: (nat, Status))
    requires Inv(w)
    ensures Owed(w, key.0, key.1) <==> UnderWay(w, key) || GivenUpBy(w, key)
    ensures HeldBy(w, key) ==> (Logged(w, key.0, key.1) <==> !Owed(w, key.0, key.1))
  {
    if Owed(w, key.0, key.1) {
      var p :| 0 <= p < |w.procs| && Owes(w.procs[p]) == Some((key.0, key.1));
      assert (key.0, key.1) == key;
      assert w.procs[p].DatabaseError? ==> w.procs[p] == DatabaseError(Some(key));
    }
    if UnderWay(w, key) {
      var p :| 0 <= p < |w.procs| && !w.procs[p].DatabaseError? && Owes(w.procs[p]) == Some(key);
      assert Owes(w.procs[p]) == Some((key.0, key.1));
    }
    if GivenUpBy(w, key) {
      var p :| 0 <= p < |w.procs| && w.procs[p] == DatabaseError(Some(key));
      assert Owes(w.procs[p]) == Some((key.0, key.1));
    }
  }

  // ---------- what can still happen ----------

  function Onward(p: nat): Turn {
    Go(p, 0, Down, NoFault)
  }

  /** The event is in the log after the process's insert. */
  lemma LogsIt(c: Chain, w: World, p: nat, now: int, horizon: Horizon, fault: Fault)
    requires Inv(w) && p < |w.procs| && (w.procs[p].EmitEvent? || w.procs[p].EmitCreated?) && fault != Before
    ensures var key := Owes(w.procs[p]).value; Logged(Step(c, w, Go(p, now, horizon, fault)), key.0, key.1)
  {
    OwedIsHeld(w, p);
    assert ProcOk(w, w.procs[p]);
    if w.procs[p].EmitEvent? {
      LogsTransition(c, w, p, now, horizon, fault);
    } else {
      LogsCreation(c, w, p, now, horizon, fault);
    }
  }

  lemma LogsTransition(c: Chain, w: World, p: nat, now: int, horizon: Horizon, fault: Fault)
    requires p < |w.procs| && w.procs[p].EmitEvent? && fault != Before && w.procs[p].updated.id == w.procs[p].req.id
    requires !Logged(w, w.procs[p].req.id, w.procs[p].req.Goal())
    ensures Logged(Step(c, w, Go(p, now, horizon, fault)), w.procs[p].req.id, w.procs[p].req.Goal())
  {
    var w', n := Step(c, w, Go(p, now, horizon, fault)), |w.events|;
    AttemptedTransits(c, w, p, now, horizon, fault);
    assert n < |w'.events| && w'.events[n].paymentId == w.procs[p].req.id && w'.events[n].kind == w.procs[p].req.Goal();
  }

  lemma LogsCreation(c: Chain, w: World, p: nat, now: int, horizon: Horizon, fault: Fault)
    requires p < |w.procs| && w.procs[p].EmitCreated? && fault != Before && !Logged(w, w.procs[p].row.id, Created)
    ensures Logged(Step(c, w, Go(p, now, horizon, fault)), w.procs[p].row.id, Created)
  {
    var w', n := Step(c, w, Go(p, now, horizon, fault)), |w.events|;
    assert n < |w'.events| && w'.events[n].paymentId == w.procs[p].row.id && w'.events[n].kind == Created;
  }

  /** It owes an event and has not thrown. */
  predicate CanGoOn(pc: Pc) {
    pc.EmitEvent? || pc.EmitCreated? || pc.Reload?
  }

  /** A winner that has reloaded can log its event next; one about to reload, after that. */
  lemma CanLog(c: Chain, w: World, p: nat) returns (more: seq<Turn>)
    requires Inv(w) && p < |w.procs| && CanGoOn(w.procs[p])
    ensures var key := Owes(w.procs[p]).value; Logged(Run(c, w, more), key.0, key.1)
  {
    more := [Onward(p)];
    var w' := Step(c, w, Onward(p));
    if w.procs[p].Reload? {
      Reloads(c, w, p);
      StepKeeps(c, w, Onward(p));
      LogsIt(c, w', p, 0, Down, NoFault);
      assert Run(c, w', more) == Run(c, Step(c, w', Onward(p)), []);
      more := [Onward(p), Onward(p)];
      assert more[1..] == [Onward(p)];
    } else {
      LogsIt(c, w, p, 0, Down, NoFault);
      assert Run(c, w, more) == Run(c, w', []);
    }
  }

  lemma Reloads(c: Chain, w: World, p: nat)
    requires Inv(w) && p < |w.procs| && w.procs[p].Reload?
    ensures var w' := Step(c, w, Onward(p)); p < |w'.procs| && w'.procs[p].EmitEvent? && Owes(w'.procs[p]) == Owes(w.procs[p])
  {
    OwedIsHeld(w, p);
    AttemptedTransits(c, w, p, 0, Down, NoFault);
  }

  /** After an operation that does not lose the event it is logged, or its process is about to log or reload. */
  lemma NotLostYet(c: Chain, w: World, p: nat, now: int, horizon: Horizon, fault: Fault)
    requires Inv(w) && p < |w.procs| && AtStake(w, p).Some? && !Loses(w.procs[p], fault)
    requires w.procs[p].CompareAndSet? || w.procs[p].InsertPayment? ==> fault != Before
    ensures var w', key := Step(c, w, Go(p, now, horizon, fault)), AtStake(w, p).value;
      Logged(w', key.0, key.1) || (p < |w'.procs| && CanGoOn(w'.procs[p]) && Owes(w'.procs[p]) == Some(key))
  {
    if w.procs[p].EmitEvent? || w.procs[p].EmitCreated? {
      LogsIt(c, w, p, now, horizon, fault);
    } else {
      MovedOwing(c, w, p, now, horizon);
      AttemptedProc(c, w, p, now, horizon, fault);
    }
  }

  /** These turns put the event into the log. */
  ghost predicate LogsLater(c: Chain, w: World, more: seq<Turn>, key: (nat, Status)) {
    Logged(Run(c, w, more), key.0, key.1)
  }

  /**
   * An operation with an event at stake leaves no continuation that logs it exactly if it fails after the change, at the
   * reload, or before the event is inserted. (A change that fails before taking effect makes no event due.)
   */
  lemma EventLostIff(c: Chain, w: World, p: nat, now: int, horizon: Horizon, fault: Fault)
    requires Inv(w) && p < |w.procs| && AtStake(w, p).Some?
    requires w.procs[p].CompareAndSet? || w.procs[p].InsertPayment? ==> fault != Before
    ensures var w', key := Step(c, w, Go(p, now, horizon, fault)), AtStake(w, p).value;
      (forall more :: !LogsLater(c, w', more, key)) <==> Loses(w.procs[p], fault)
  {
    if Loses(w.procs[p], fault) {
      forall more ensures !LogsLater(c, Step(c, w, Go(p, now, horizon, fault)), more, AtStake(w, p).value) {
        LostForGood(c, w, p, now, horizon, fault, more);
      }
    } else {
      var more := StillPossible(c, w, p, now, horizon, fault);
    }
  }

  lemma LostForGood(c: Chain, w: World, p: nat, now: int, horizon: Horizon, fault: Fault, more: seq<Turn>)
    requires Inv(w) && p < |w.procs| && AtStake(w, p).Some? && Loses(w.procs[p], fault)
    ensures !LogsLater(c, Step(c, w, Go(p, now, horizon, fault)), more, AtStake(w, p).value)
  {
    StepKeeps(c, w, Go(p, now, horizon, fault));
    ThrowsWithDebtIff(c, w, p, now, horizon, fault, AtStake(w, p).value);
    NeverLogged(c, Step(c, w, Go(p, now, horizon, fault)), p, AtStake(w, p).value, more);
  }

  lemma StillPossible(c: Chain, w: World, p: nat, now: int, horizon: Horizon, fault: Fault) returns (more: seq<Turn>)
    requires Inv(w) && p < |w.procs| && AtStake(w, p).Some? && !Loses(w.procs[p], fault)
    requires w.procs[p].CompareAndSet? || w.procs[p].InsertPayment? ==> fault != Before
    ensures LogsLater(c, Step(c, w, Go(p, now, horizon, fault)), more, AtStake(w, p).value)
  {
    var w', key := Step(c, w, Go(p, now, horizon, fault)), AtStake(w, p).value;
    NotLostYet(c, w, p, now, horizon, fault);
    more := [];
    if !Logged(w', key.0, key.1) {
      StepKeeps(c, w, Go(p, now, horizon, fault));
      more := CanLog(c, w', p);
    }
  }

  lemma NeverLogged(c: Chain, w: World, p: nat, key: (nat, Status), more: seq<Turn>)
    requires Inv(w) && p < |w.procs| && w.procs[p] == DatabaseError(Some(key))
    ensures !Logged(Run(c, w, more), key.0, key.1)
  {
    RunKeeps(c, w, more);
    OverStays(c, w, more, p);
    GivenUp(Run(c, w, more), p);
  }

  // ---------- a run that loses one ----------

  /** The creator moves its payment to pending and fails to reload it: pending is held, and its event never comes. */
  lemma EventCanBeLost(c: Chain) returns (schedule: seq<Turn>)
    ensures forall more ::
      HeldBy(Run(c, INIT, schedule + more), (0, Pending)) && !Logged(Run(c, INIT, schedule + more), 0, Pending)
  {
    var s := PaymentCreated(c);
    s := MovedToPending(c, s);
    schedule := ReloadFails(c, s);
    InitOk();
    RunKeeps(c, INIT, schedule);
    forall more ensures HeldBy(Run(c, INIT, schedule + more), (0, Pending)) && !Logged(Run(c, INIT, schedule + more), 0, Pending) {
      var w := Run(c, INIT, schedule);
      RunAppend(c, INIT, schedule, more);
      NeverLogged(c, w, 0, (0, Pending), more);
      StillHeldLater(c, w, more, 0);
    }
  }

  lemma ReloadFails(c: Chain, s0: seq<Turn>) returns (s: seq<Turn>)
    requires Run(c, INIT, s0) ==
      Holding(PENDING_ROW, [Created, Pending], [CREATED_EVENT], [Reload(ToPending(0), Create, CREATED_ROW), FindForCancel(0)])
    ensures Run(c, INIT, s).procs == [DatabaseError(Some((0, Pending))), FindForCancel(0)]
  {
    s := Extended(c, s0, Go(0, 0, Down, Before),
                  Holding(PENDING_ROW, [Created, Pending], [CREATED_EVENT], [DatabaseError(Some((0, Pending))), FindForCancel(0)]));
  }

  /** A debt is for a status really held, and it stays. */
  lemma StillHeldLater(c: Chain, w: World, more: seq<Turn>, p: nat)
    requires Inv(w) && p < |w.procs| && w.procs[p].DatabaseError? && w.procs[p].unlogged.Some?
    ensures HeldBy(Run(c, w, more), w.procs[p].unlogged.value)
  {
    RunKeeps(c, w, more);
    OverStays(c, w, more, p);
    OwedIsHeld(Run(c, w, more), p);
  }
}
