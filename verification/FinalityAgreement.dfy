/**
 * The finality machine and the payment machine describe the transitions of a finality job alike: each operation of the
 * one is a turn of the other, or none where it touches only the event log or the checkout link.
 */
module FinalityAgreement {
  import opened Wrappers
  import opened Lifecycle
  import P = PaymentMachine
  import F = Finality

  /** Where a finality job stands in one machine, and where in the other. */
  predicate Alike(payments: map<nat, Payment>, ours: P.Pc, theirs: F.Pc) {
    match ours
    case Read(req, _) => if req.ToCompleted? then theirs == F.Confirming(req.id) else theirs == F.Refuting(req.id)
    case CompareAndSet(req, _, _) => if req.ToCompleted? then theirs == F.Swapping(req.id) else theirs == F.Failing(req.id)
    case LostReload(req, _, _) => HandsOn(req, payments, theirs)
    case Reload(req, _, _) => req.id in payments && payments[req.id].status == req.Goal() && HandsOn(req, payments, theirs)
    case EmitEvent(req, _, updated) => theirs == if req.ToCompleted? then F.Loading(updated) else F.Over
    case SyncLink(req, _, row) => theirs == if req.ToCompleted? then F.Loading(row) else F.Over
    case Returned(req, _, row) => theirs == if req.ToCompleted? then F.Loading(row) else F.Over
    case _ => theirs == F.Over
  }

  /** A completed row is about to be handed to the customer totals; anything else ends the job. */
  predicate HandsOn(req: Request, payments: map<nat, Payment>, theirs: F.Pc) {
    theirs == if req.ToCompleted? && req.id in payments && payments[req.id].status == Completed then F.Loading(payments[req.id]) else F.Over
  }

  /** A transition of a finality job, in progress. */
  predicate InTransition(pc: P.Pc) {
    (P.IsTransiting(pc) || pc.SyncLink?) && pc.job == P.Finality && IsFinalityRequest(pc.req)
  }

  predicate IsFinalityRequest(req: Request) {
    req.ToCompleted? || (req.ToFailed? && req.code == "tx_unsuccessful")
  }

  /** The rows of the two machines are the same, and the job stands alike. */
  ghost predicate Agree(ours: P.World, p: nat, theirs: F.World, q: nat) {
    && p < |ours.procs| && q < |theirs.procs| && ours.payments == theirs.payments && ours.trails.Keys == ours.payments.Keys
    && Alike(ours.payments, ours.procs[p], theirs.procs[q])
  }

  /** The operation succeeds, or throws before or after its effect. */
  function Outcome(ours: P.World, p: nat, fault: Fault): P.World
    requires p < |ours.procs|
  {
    if fault == Before then P.Thrown(ours, p)
    else
      var done := P.Transition(ours, p, ours.procs[p]);
      if fault == NoFault || p >= |done.procs| then done else P.Thrown(done, p)
  }

  lemma OutcomeIs(c: P.Chain, ours: P.World, p: nat, now: int, horizon: P.Horizon, fault: Fault)
    requires p < |ours.procs| && P.IsTransiting(ours.procs[p])
    ensures P.Attempted(c, ours, p, now, horizon, fault) == Outcome(ours, p, fault)
  {
  }

  /** One operation of the job, succeeding or failing, is matched by at most one turn of the finality machine. */
  lemma OperationsAgree(c: P.Chain, ours: P.World, p: nat, now: int, horizon: P.Horizon, fault: Fault, theirs: F.World, q: nat)
    returns (turns: seq<F.Turn>)
    requires Agree(ours, p, theirs, q) && InTransition(ours.procs[p])
    requires ours.procs[p].EmitEvent? ==> !P.Logged(ours, ours.procs[p].updated.id, ours.procs[p].req.Goal())
    ensures |turns| <= 1 && Agree(P.Attempted(c, ours, p, now, horizon, fault), p, F.Run(theirs, turns), q)
  {
    var pc := ours.procs[p];
    if pc.SyncLink? {
      turns := SyncAgrees(c, ours, p, now, horizon, fault, theirs, q);
    } else {
      OutcomeIs(c, ours, p, now, horizon, fault);
      match pc
      case Read(_, _) => turns := ReadAgrees(ours, p, fault, theirs, q);
      case CompareAndSet(req, _, _) =>
        turns := [F.Go(q, F.Unavailable, if req.ToCompleted? then req.now else 0, fault)];
        OneTurn(theirs, turns[0]);
        if req.ToCompleted? { CompletionAgrees(ours, p, fault, theirs, q); } else { FailureAgrees(ours, p, fault, theirs, q); }
      case _ => turns := RestAgrees(ours, p, fault, theirs, q);
    }
  }

  /** Horizon's answer as the one machine has it and as the other. */
  function LookupOf(answer: P.Horizon): F.Lookup {
    match answer
    case Transaction(successful) => F.Found(successful)
    case Missing => F.NotFound
    case _ => F.Unavailable
  }

  /**
   * The decision before the transition: the row read at one moment and Horizon's answer, which may come later, lead both
   * jobs to the same place.
   */
  lemma DecisionsAgree(
    c: P.Chain, ours: P.World, later: P.World, theirs: F.World, id: nat, now: int, answer: P.Horizon)
    requires ours.payments == theirs.payments && forall x | x in ours.payments :: ours.payments[x].id == x
    ensures var found := P.Prepare(c, ours, P.FindForFinality(id), now, answer);
      Alike(later.payments, if found.GetTransaction? then P.Prepare(c, later, found, now, answer) else found,
            F.AfterStart(theirs, id, LookupOf(answer)))
  {
  }

  lemma OneTurn(w: F.World, t: F.Turn)
    ensures F.Run(w, [t]) == F.Step(w, t)
  {
    assert F.Run(w, [t]) == F.Run(F.Step(w, t), []);
  }

  lemma ReadAgrees(ours: P.World, p: nat, fault: Fault, theirs: F.World, q: nat) returns (turns: seq<F.Turn>)
    requires Agree(ours, p, theirs, q) && InTransition(ours.procs[p]) && ours.procs[p].Read?
    ensures |turns| <= 1 && Agree(Outcome(ours, p, fault), p, F.Run(theirs, turns), q)
  {
    turns := [F.Go(q, F.Unavailable, 0, fault)];
    OneTurn(theirs, turns[0]);
  }

  lemma CompletionAgrees(ours: P.World, p: nat, fault: Fault, theirs: F.World, q: nat)
    requires Agree(ours, p, theirs, q) && InTransition(ours.procs[p]) && ours.procs[p].CompareAndSet? &&
      ours.procs[p].req.ToCompleted?
    ensures var req := ours.procs[p].req; Agree(Outcome(ours, p, fault), p, F.Step(theirs, F.Go(q, F.Unavailable, req.now, fault)), q)
  {
    var req := ours.procs[p].req;
    assert F.Step(theirs, F.Go(q, F.Unavailable, req.now, fault)) == F.Complete(theirs, q, req.id, req.now, fault);
    if fault == Before {
    } else if P.CasMatches(ours, req) {
      WinnersAgree(ours, p, fault, theirs, q);
    } else {
      LosersAgree(ours, p, fault, theirs, q);
    }
  }

  lemma WinnersAgree(ours: P.World, p: nat, fault: Fault, theirs: F.World, q: nat)
    requires Agree(ours, p, theirs, q) && InTransition(ours.procs[p]) && ours.procs[p].CompareAndSet? &&
      ours.procs[p].req.ToCompleted?
    requires P.CasMatches(ours, ours.procs[p].req) && fault != Before
    ensures var req := ours.procs[p].req; Agree(Outcome(ours, p, fault), p, F.Complete(theirs, q, req.id, req.now, fault), q)
  {
    var req := ours.procs[p].req;
    var row := req.Apply(ours.payments[req.id]);
    assert P.Transition(ours, p, ours.procs[p]) == P.Goto(P.Write(ours, req), p, P.Reload(req, ours.procs[p].job, ours.procs[p].current));
    assert F.Complete(theirs, q, req.id, req.now, fault)
      == F.Goto(theirs.(payments := theirs.payments[req.id := row]), q, if fault == After then F.Over else F.Loading(row));
  }

  lemma LosersAgree(ours: P.World, p: nat, fault: Fault, theirs: F.World, q: nat)
    requires Agree(ours, p, theirs, q) && InTransition(ours.procs[p]) && ours.procs[p].CompareAndSet? &&
      ours.procs[p].req.ToCompleted?
    requires !P.CasMatches(ours, ours.procs[p].req) && fault != Before
    ensures var req := ours.procs[p].req; Agree(Outcome(ours, p, fault), p, F.Complete(theirs, q, req.id, req.now, fault), q)
  {
    var req := ours.procs[p].req;
    assert P.Transition(ours, p, ours.procs[p]) == P.Goto(ours, p, P.LostReload(req, ours.procs[p].job, ours.procs[p].current));
    assert req.id in ours.payments ==> theirs.payments[req.id := theirs.payments[req.id]] == theirs.payments;
  }

  lemma FailureAgrees(ours: P.World, p: nat, fault: Fault, theirs: F.World, q: nat)
    requires Agree(ours, p, theirs, q) && InTransition(ours.procs[p]) && ours.procs[p].CompareAndSet? &&
      !ours.procs[p].req.ToCompleted?
    ensures Agree(Outcome(ours, p, fault), p, F.Step(theirs, F.Go(q, F.Unavailable, 0, fault)), q)
  {
    var req := ours.procs[p].req;
    assert F.Step(theirs, F.Go(q, F.Unavailable, 0, fault)) == F.Refute(theirs, q, req.id, fault);
  }

  /** The job throws: the finality machine lets its next operation fail, unless it is over already. */
  lemma ThrownAgrees(ours: P.World, p: nat, theirs: F.World, q: nat) returns (turns: seq<F.Turn>)
    requires p < |ours.procs| && q < |theirs.procs| && ours.payments == theirs.payments && ours.trails.Keys == ours.payments.Keys
    requires ours.procs[p].DatabaseError? && (theirs.procs[q].Loading? || theirs.procs[q].Over?)
    ensures |turns| <= 1 && Agree(ours, p, F.Run(theirs, turns), q)
  {
    turns := [];
    if theirs.procs[q].Loading? {
      turns := [F.Go(q, F.Unavailable, 0, Before)];
      OneTurn(theirs, turns[0]);
    }
  }

  /** Reload and event: nothing happens in the finality machine, unless the operation fails. */
  lemma RestAgrees(ours: P.World, p: nat, fault: Fault, theirs: F.World, q: nat) returns (turns: seq<F.Turn>)
    requires Agree(ours, p, theirs, q) && InTransition(ours.procs[p]) && P.IsTransiting(ours.procs[p])
    requires !ours.procs[p].Read? && !ours.procs[p].CompareAndSet?
    requires ours.procs[p].EmitEvent? ==> !P.Logged(ours, ours.procs[p].updated.id, ours.procs[p].req.Goal())
    ensures |turns| <= 1 && Agree(Outcome(ours, p, fault), p, F.Run(theirs, turns), q)
  {
    if fault == NoFault {
      turns := [];
      SuccessAgrees(ours, p, theirs, q);
    } else {
      turns := ThrownAgrees(Outcome(ours, p, fault), p, theirs, q);
    }
  }

  lemma SuccessAgrees(ours: P.World, p: nat, theirs: F.World, q: nat)
    requires Agree(ours, p, theirs, q) && InTransition(ours.procs[p]) && P.IsTransiting(ours.procs[p])
    requires !ours.procs[p].Read? && !ours.procs[p].CompareAndSet?
    requires ours.procs[p].EmitEvent? ==> !P.Logged(ours, ours.procs[p].updated.id, ours.procs[p].req.Goal())
    ensures Agree(P.Transition(ours, p, ours.procs[p]), p, theirs, q)
  {
  }

  /** The checkout link: the same. */
  lemma SyncAgrees(c: P.Chain, ours: P.World, p: nat, now: int, horizon: P.Horizon, fault: Fault, theirs: F.World, q: nat)
    returns (turns: seq<F.Turn>)
    requires Agree(ours, p, theirs, q) && InTransition(ours.procs[p]) && ours.procs[p].SyncLink?
    ensures |turns| <= 1 && Agree(P.Attempted(c, ours, p, now, horizon, fault), p, F.Run(theirs, turns), q)
  {
    var after := P.Attempted(c, ours, p, now, horizon, fault);
    if after.procs[p].DatabaseError? {
      turns := ThrownAgrees(after, p, theirs, q);
    } else {
      turns := [];
    }
  }
}
