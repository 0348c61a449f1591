/**
 * The payment services written as the code is: reads, writes, branches and loops on the shared store.
 *
 * Between two store operations of a worker any other workers may run (`Interfere`), for as long as they like and in
 * any order. `Valid` says that the store is exactly what the interleaved machine reaches, so every theorem about its
 * runs holds of these methods. A worker that scans several rows is the processes `lo..hi`, one for each row.
 */
module PaymentWorkers {
  import opened Wrappers
  import opened Verifier
  import opened Lifecycle
  import opened PaymentMachine
  import opened PaymentInvariant
  import opened PaymentSafety
  import opened PaymentTheorems
  import opened PaymentCalls
  import opened PaymentOutcomes

  datatype Written = Count(n: nat) | UniqueViolation | Threw

  /** A schedule in which the processes `lo..hi` take no turn. */
  predicate Elsewhere(turns: seq<Turn>, lo: nat, hi: nat) {
    forall t | t in turns && t.Go? :: !(lo <= t.proc < hi)
  }

  /** What the other workers do before an operation, and how the operation ends. */
  datatype Pause = Pause(others: seq<Turn>, fault: Fault)
  {
    predicate Others(lo: nat, hi: nat) {
      Elsewhere(others, lo, hi)
    }

    predicate Fine() {
      fault == NoFault
    }

    /** Nobody runs before it and it succeeds. */
    predicate Quiet() {
      others == [] && fault == NoFault
    }
  }

  /** The four operations of a transition. */
  datatype Pauses = Pauses(read: Pause, write: Pause, reload: Pause, emit: Pause)
  {
    predicate Others(lo: nat, hi: nat) {
      read.Others(lo, hi) && write.Others(lo, hi) && reload.Others(lo, hi) && emit.Others(lo, hi)
    }

    predicate Fine() {
      read.Fine() && write.Fine() && reload.Fine() && emit.Fine()
    }

    predicate Quiet() {
      read.Quiet() && write.Quiet() && reload.Quiet() && emit.Quiet()
    }
  }

  /** The operations around one transition: `sync` and `queue` are those after it. */
  datatype LongPauses = LongPauses(first: Pause, second: Pause, third: Pause, call: Pauses, sync: Pause, queue: Pause)
  {
    predicate Others(lo: nat, hi: nat) {
      && first.Others(lo, hi) && second.Others(lo, hi) && third.Others(lo, hi)
      && call.Others(lo, hi) && sync.Others(lo, hi) && queue.Others(lo, hi)
    }

    predicate Fine() {
      first.Fine() && second.Fine() && third.Fine() && call.Fine() && sync.Fine() && queue.Fine()
    }

    predicate Quiet() {
      first.Quiet() && second.Quiet() && third.Quiet() && call.Quiet() && sync.Quiet() && queue.Quiet()
    }
  }

  /** The processes after `p` and below `hi` are where they were. */
  ghost predicate Waiting(was: seq<Pc>, now: seq<Pc>, p: nat, hi: nat) {
    hi <= |was| <= |now| && forall q | p < q < hi :: now[q] == was[q]
  }

  lemma {:induction false} OthersLeaveAlone(c: Chain, w: World, turns: seq<Turn>, lo: nat, hi: nat)
    requires hi <= |w.procs| && Elsewhere(turns, lo, hi)
    ensures |w.procs| <= |Run(c, w, turns).procs|
    ensures forall q | lo <= q < hi :: Run(c, w, turns).procs[q] == w.procs[q]
    decreases |turns|
  {
    if turns != [] {
      var t := turns[0];
      assert t in turns;
      if t.Go? && t.proc < |w.procs| {
        OnlyOneAttempts(c, w, t.proc, t.now, t.horizon, t.fault);
      }
      OthersLeaveAlone(c, Step(c, w, t), turns[1..], lo, hi);
    }
  }

  /** One round of a scanning loop: the clock, Horizon's answer, the clock after it, and what the others do. */
  datatype Round = Round(now: int, answer: Horizon, later: int, gap: LongPauses)

  /** The rounds of a scan whose rows are the processes `lo..hi`. */
  ghost predicate RoundsOk(chain: Chain, rounds: seq<Round>, lo: nat, hi: nat) {
    forall x | x in rounds ::
      x.gap.Others(lo, hi) && (x.answer.Listing? ==> forall r | r in x.answer.records :: r in chain.ledger)
  }

  lemma NarrowerGap(gap: LongPauses, lo: nat, mid: nat, hi: nat)
    requires lo <= mid && gap.Others(lo, hi)
    ensures gap.Others(mid, hi)
  {
  }

  lemma NarrowerCall(gap: Pauses, lo: nat, mid: nat, hi: nat)
    requires lo <= mid && gap.Others(lo, hi)
    ensures gap.Others(mid, hi)
  {
  }

  /** `outcomes[key] ?? 0`. */
  function Get(outcomes: map<Outcome, nat>, key: Outcome): nat {
    if key in outcomes then outcomes[key] else 0
  }

  function Tally(outcomes: map<Outcome, nat>): nat {
    Get(outcomes, DidSkip) + Get(outcomes, NoMatchYet) + Get(outcomes, DidConfirm) + Get(outcomes, DidFail)
    + Get(outcomes, DidExpire) + Get(outcomes, DidComplete) + Get(outcomes, HorizonUnavailable)
  }

  /** `outcomes[key] = (outcomes[key] ?? 0) + 1` adds one to the tally. */
  function Bump(outcomes: map<Outcome, nat>, key: Outcome): (r: map<Outcome, nat>)
    ensures Tally(r) == Tally(outcomes) + 1
    ensures forall k :: Get(r, k) == if k == key then Get(outcomes, k) + 1 else Get(outcomes, k)
  {
    var r := outcomes[key := Get(outcomes, key) + 1];
    assert forall k :: Get(r, k) == if k == key then Get(outcomes, k) + 1 else Get(outcomes, k);
    assert key in {DidSkip, NoMatchYet, DidConfirm, DidFail, DidExpire, DidComplete, HorizonUnavailable};
    r
  }

  function AfterSwap(w: World, req: Request, job: Job, current: Payment, fault: Fault): Pc {
    var matches, wins := CasMatches(w, req), CasMatches(w, req) && !CasConflicts(w, req);
    if fault != NoFault then DatabaseError(if wins && fault == After then Some((req.id, req.Goal())) else None)
    else if wins then Reload(req, job, current)
    else if matches then Conflicted else LostReload(req, job, current)
  }

  lemma SwapTurn(c: Chain, w: World, p: nat, req: Request, job: Job, current: Payment, fault: Fault)
    requires p < |w.procs| && w.procs[p] == CompareAndSet(req, job, current)
    ensures var w' := if fault != Before && CasMatches(w, req) && !CasConflicts(w, req) then Write(w, req) else w;
      Step(c, w, Go(p, 0, Down, fault)) == Goto(w', p, AfterSwap(w, req, job, current, fault))
  {
    AttemptedTransits(c, w, p, 0, Down, fault);
  }

  lemma VerdictTurn(c: Chain, w: World, p: nat, row: Payment, records: seq<HorizonRecord>, now: int)
    requires p < |w.procs| && w.procs[p] == LoadHashes(row, records)
    ensures var verdict := FirstMatch(row.terms, records, ForeignHashes(w, records, row.id), c.issuers);
      Step(c, w, Go(p, now, Down, NoFault)) == Goto(w, p, AfterVerdict(row, verdict, now))
  {
  }

  /** So many different scanned payments have held this status. */
  ghost predicate Reckoned(w: World, ids: set<nat>, count: nat, status: Status, scanned: seq<nat>) {
    |ids| == count && forall id | id in ids :: id in scanned && HeldBy(w, (id, status))
  }

  function Noting(ids: set<nat>, yes: bool, id: nat): set<nat> {
    if yes then ids + {id} else ids
  }

  lemma ReckonedOne(w: World, ids: set<nat>, count: nat, status: Status, scanned: seq<nat>, i: nat, yes: bool)
    requires i < |scanned| && (forall j | 0 <= j < i :: scanned[j] != scanned[i]) && Reckoned(w, ids, count, status, scanned[..i])
    requires yes ==> HeldBy(w, (scanned[i], status))
    ensures Reckoned(w, Noting(ids, yes, scanned[i]), if yes then count + 1 else count, status, scanned[..i + 1])
  {
    assert scanned[..i + 1] == scanned[..i] + [scanned[i]];
    assert scanned[i] !in scanned[..i];
  }

  /** The counters of a poll over these rows add up, and two of them count payments. */
  ghost predicate Counters(w: World, outcomes: map<Outcome, nat>, confirmed: set<nat>, failed: set<nat>, scanned: seq<nat>) {
    && Tally(outcomes) == |scanned|
    && Reckoned(w, confirmed, Get(outcomes, DidConfirm), Confirmed, scanned)
    && Reckoned(w, failed, Get(outcomes, DidFail), Failed, scanned)
  }

  /** The rows from `from` on are still waiting in their processes. */
  ghost predicate Queued(procs: seq<Pc>, lo: nat, rows: seq<Payment>, from: nat) {
    lo + |rows| <= |procs| && forall i | from <= i < |rows| :: procs[lo + i] == PollRow(rows[i])
  }

  lemma StillQueued(was: seq<Pc>, now: seq<Pc>, lo: nat, rows: seq<Payment>, from: nat)
    requires Queued(was, lo, rows, from) && Waiting(was, now, lo + from, lo + |rows|)
    ensures Queued(now, lo, rows, from + 1)
  {
  }

  ghost predicate Expiring(procs: seq<Pc>, lo: nat, ids: seq<nat>, from: nat) {
    lo + |ids| <= |procs| && forall i | from <= i < |ids| :: procs[lo + i] == Read(ToExpired(ids[i]), Expire)
  }

  lemma StillExpiring(was: seq<Pc>, now: seq<Pc>, lo: nat, ids: seq<nat>, from: nat)
    requires Expiring(was, lo, ids, from) && Waiting(was, now, lo + from, lo + |ids|)
    ensures Expiring(now, lo, ids, from + 1)
  {
  }

  /** The compare-and-set of a row that may move, undisturbed. */
  predicate Swapped(rows: Rows, rows': Rows, req: Request, r: Result<bool, Failure>)
    requires req.id in rows
  {
    if Clashes(rows, req) then r == Err(Duplicate) && rows' == rows
    else r == Ok(true) && rows' == rows[req.id := req.Apply(rows[req.id])]
  }

  /** Load and compare-and-set, undisturbed. */
  predicate Tried(rows: Rows, rows': Rows, req: Request, r: Result<(Payment, bool), Failure>) {
    if !MayMove(rows, req) then r == Err(StateTransition) && rows' == rows
    else if Clashes(rows, req) then r == Err(Duplicate) && rows' == rows
    else r.Ok? && r.value.1 && rows' == rows[req.id := req.Apply(rows[req.id])]
  }

  /** The winner's reload and event, undisturbed. */
  predicate Announced(rows: Rows, events: seq<Event>, events': seq<Event>, req: Request, r: Result<Payment, Failure>) {
    && req.id in rows && r == Ok(rows[req.id])
    && events' == events + [Event(req.id, req.Goal(), rows[req.id])]
  }

  predicate AllQuiet(gaps: seq<Pauses>) {
    forall g | g in gaps :: g.Quiet()
  }

  predicate ExpiredSoFar(gaps: seq<Pauses>, before: Rows, rows: Rows, ids: seq<nat>, i: nat, count: nat)
    requires i <= |ids|
  {
    AllQuiet(gaps) ==> count == i && ExpiredAll(before, rows, ids[..i])
  }

  lemma ExpiredOneMore(gaps: seq<Pauses>, before: Rows, rows: Rows, after: Rows, ids: seq<nat>, i: nat, count: nat, done: bool)
    requires i < |ids| == |gaps| && (forall j | 0 <= j < i :: ids[j] != ids[i]) && ExpiredSoFar(gaps, before, rows, ids, i, count)
    requires gaps[i].Quiet() ==> Expires(rows, after, ids[i], done)
    requires ids[i] in before && before[ids[i]].status in {Created, Pending}
    ensures ExpiredSoFar(gaps, before, after, ids, i + 1, if done then count + 1 else count)
  {
    if AllQuiet(gaps) {
      assert gaps[i] in gaps;
      OneMoreExpired(before, rows, after, ids, i, done);
    }
  }

  lemma PendingIsEarly(trail: seq<Status>)
    requires IsPath(trail) && trail[|trail| - 1] == Pending
    ensures Confirmed !in trail
  {
    forall i | 0 <= i < |trail| ensures trail[i] != Confirmed {
      if i < |trail| - 1 { ChainsClimb(trail, i, |trail| - 1); }
    }
  }

  predicate RoundsQuiet(rounds: seq<Round>) {
    forall x | x in rounds :: x.gap.Quiet()
  }

  /** Round `i` of a poll took the rows from this stage to the next, as it must. */
  ghost predicate StageOk(
    issuers: Issuers, open: seq<Payment>, rounds: seq<Round>, stages: seq<Rows>, answers: seq<Outcome>, i: nat)
  {
    && i < |answers| < |stages| && i < |open| && i < |rounds|
    && Polled(stages[i], stages[i + 1], open[i], rounds[i].answer, issuers, rounds[i].now, rounds[i].later, Ok(answers[i]))
  }

  ghost predicate StagesOk(
    issuers: Issuers, before: Rows, rows: Rows, open: seq<Payment>, rounds: seq<Round>, stages: seq<Rows>, answers: seq<Outcome>)
  {
    && |stages| == |answers| + 1 && stages[0] == before && stages[|answers|] == rows
    && forall i | 0 <= i < |answers| :: StageOk(issuers, open, rounds, stages, answers, i)
  }

  predicate StillAwaiting(rows: Rows, open: seq<Payment>, from: nat) {
    forall j | from <= j < |open| :: Awaits(rows, open[j])
  }

  ghost predicate PolledSoFar(
    issuers: Issuers, before: Rows, rows: Rows, open: seq<Payment>, rounds: seq<Round>, stages: seq<Rows>, answers: seq<Outcome>)
  {
    RoundsQuiet(rounds) ==>
      StagesOk(issuers, before, rows, open, rounds, stages, answers) && StillAwaiting(rows, open, |answers|)
  }

  lemma StageAdded(
    issuers: Issuers, before: Rows, rows: Rows, after: Rows, open: seq<Payment>, rounds: seq<Round>, stages: seq<Rows>,
    answers: seq<Outcome>, outcome: Outcome)
    requires |answers| < |open| == |rounds| && forall i, j | 0 <= i < j < |open| :: open[i].id != open[j].id
    requires PolledSoFar(issuers, before, rows, open, rounds, stages, answers)
    requires var i := |answers|; rounds[i].gap.Quiet() && Awaits(rows, open[i]) ==>
      Polled(rows, after, open[i], rounds[i].answer, issuers, rounds[i].now, rounds[i].later, Ok(outcome))
    ensures PolledSoFar(issuers, before, after, open, rounds, stages + [after], answers + [outcome])
  {
    if RoundsQuiet(rounds) {
      var i := |answers|;
      assert rounds[i] in rounds;
      PolledOnlyOwn(rows, after, open[i], rounds[i].answer, issuers, rounds[i].now, rounds[i].later, Ok(outcome));
      forall k: nat | k < i + 1 ensures StageOk(issuers, open, rounds, stages + [after], answers + [outcome], k) {
        if k < i { assert StageOk(issuers, open, rounds, stages, answers, k); }
      }
    }
  }

  /** The counters count these answers. */
  predicate CountsOf(outcomes: map<Outcome, nat>, answers: seq<Outcome>) {
    forall o :: Get(outcomes, o) == multiset(answers)[o]
  }

  lemma CountsBumped(outcomes: map<Outcome, nat>, answers: seq<Outcome>, outcome: Outcome)
    requires CountsOf(outcomes, answers)
    ensures CountsOf(Bump(outcomes, outcome), answers + [outcome])
  {
  }

  function FoundRows(rows: Rows, ids: seq<nat>): seq<Payment>
    requires forall id | id in ids :: id in rows
  {
    seq(|ids|, i requires 0 <= i < |ids| => rows[ids[i]])
  }

  lemma ReachedMeansHeld(w: World, pc: Pc, req: Request, row: Payment)
    requires ProcOk(w, pc) && Reaching(pc) == Some((req, row))
    ensures Reached(w, req, row) && HeldBy(w, (req.id, req.Goal()))
  {
  }

  class PaymentStore {
    const chain: Chain
    var payments: map<nat, Payment>
    var links: map<nat, Option<string>>
    var events: seq<Event>
    /** Where every worker is, and what statuses each row has held: nothing the code decides depends on these. */
    var procs: seq<Pc>
    var trails: map<nat, seq<Status>>
    /** Every turn taken so far. */
    ghost var ran: seq<Turn>

    function Now(): World
      reads this
    {
      World(payments, trails, links, events, procs)
    }

    ghost predicate Valid()
      reads this
    {
      Now() == Run(chain, INIT, ran)
    }

    predicate At(p: nat, pc: Pc)
      reads this
    {
      p < |procs| && procs[p] == pc
    }

    constructor (chain: Chain)
      ensures Valid() && ran == [] && this.chain == chain
    {
      this.chain, payments, links, events, procs, trails, ran := chain, map[], map[], [], [], map[], [];
    }

    /** The invariant of every run holds of the store. */
    lemma ValidMeansInv()
      requires Valid()
      ensures Inv(Now())
    {
      InitOk();
      RunKeeps(chain, INIT, ran);
    }

    lemma KeysAgree()
      requires Valid()
      ensures trails.Keys == payments.Keys
    {
      ValidMeansInv();
    }

    /** The store's guard and its partial index, told from the rows alone. */
    lemma GuardsAre(req: Request)
      requires Valid()
      ensures CasMatches(Now(), req) <==> MayMove(payments, req)
      ensures CasConflicts(Now(), req) <==> Clashes(payments, req)
    {
      KeysAgree();
    }

    lemma EventIsNew(p: nat)
      requires Valid() && p < |procs| && procs[p].EmitEvent?
      ensures !Logged(Now(), procs[p].updated.id, procs[p].req.Goal())
    {
      ValidMeansInv();
      EmitEventMove(Now(), p);
    }

    lemma RowIsThere(p: nat)
      requires Valid() && p < |procs| && procs[p].Reload?
      ensures procs[p].req.id in payments
    {
      ValidMeansInv();
      assert Owes(procs[p]) == Some((procs[p].req.id, procs[p].req.Goal()));
    }

    /** The other workers run. */
    method Interfere(p: nat, ghost hi: nat, others: seq<Turn>)
      requires Valid() && p < hi <= |procs| && Elsewhere(others, p, hi)
      modifies this
      ensures Valid() && ran == old(ran) + others
      ensures Waiting(old(procs), procs, p, hi) && procs[p] == old(procs)[p]
      ensures others == [] ==> Now() == old(Now())
    {
      RunAppend(chain, INIT, ran, others);
      OthersLeaveAlone(chain, Now(), others, p, hi);
      var w := Run(chain, Now(), others);
      payments, links, events, procs, trails := w.payments, w.links, w.events, w.procs, w.trails;
      ran := ran + others;
    }

    /** The worker has done one store operation and continues at `pc`. */
    method Continue(p: nat, pc: Pc, ghost turn: Turn)
      requires p < |procs|
      requires Now().(procs := procs[p := pc]) == Step(chain, Run(chain, INIT, ran), turn)
      modifies this`procs, this`ran
      ensures Valid() && ran == old(ran) + [turn] && procs == old(procs)[p := pc]
    {
      Extend(turn);
      procs := procs[p := pc];
      ran := ran + [turn];
    }

    lemma Extend(turn: Turn)
      ensures Run(chain, INIT, ran + [turn]) == Step(chain, Run(chain, INIT, ran), turn)
    {
      RunAppend(chain, INIT, ran, [turn]);
      assert Run(chain, Run(chain, INIT, ran), [turn]) == Run(chain, Step(chain, Run(chain, INIT, ran), turn), []);
    }

    // ---------- the database ----------

    method FindUnique(id: nat) returns (row: Option<Payment>)
      ensures row == if id in payments then Some(payments[id]) else None
    {
      row := if id in payments then Some(payments[id]) else None;
    }

    /** `updateMany` with the status guard, under the unique index on `transactionHash`. */
    method UpdateMany(req: Request, fault: Fault) returns (result: Written)
      requires trails.Keys == payments.Keys
      modifies this`payments, this`trails
      ensures var wins := CasMatches(old(Now()), req) && !CasConflicts(old(Now()), req);
        Now() == if fault != Before && wins then Write(old(Now()), req) else old(Now())
      ensures result ==
        if fault != NoFault then Threw
        else if !CasMatches(old(Now()), req) then Count(0)
        else if CasConflicts(old(Now()), req) then UniqueViolation else Count(1)
    {
      if fault == Before { return Threw; }
      if req.id !in payments || payments[req.id].status !in AllowedFrom(req.Goal()) {
        result := Count(0);
      } else if req.ToConfirmed? && HashTaken(Now(), req.id, req.tx.transactionHash) {
        result := UniqueViolation;
      } else {
        trails := trails[req.id := trails[req.id] + [req.Goal()]];
        payments := payments[req.id := req.Apply(payments[req.id])];
        result := Count(1);
      }
      if fault == After { result := Threw; }
    }

    /** `paymentEvent.create`, under the unique index on (paymentId, type); `ok` if the index has room for it. */
    method CreateEvent(payment: Payment, kind: Status, fault: Fault) returns (ok: bool)
      modifies this`events
      ensures ok == !Logged(old(Now()), payment.id, kind)
      ensures events == if ok && fault != Before then old(events) + [Event(payment.id, kind, payment)] else old(events)
    {
      ok := !exists i | 0 <= i < |events| :: events[i].paymentId == payment.id && events[i].kind == kind;
      if ok && fault != Before {
        events := events + [Event(payment.id, kind, payment)];
      }
    }

    // ---------- PaymentStateMachine.transition ----------

    /** An operation failed: the worker stops, and an event it still owed is never logged. */
    predicate Stopped(p: nat, req: Request)
      reads this
    {
      && p < |procs| && procs[p].DatabaseError?
      && (procs[p].unlogged.Some? ==> procs[p].unlogged == Some((req.id, req.Goal())))
    }

    /** Where a worker stands whose call of `transition` returned or threw. */
    predicate Lands(p: nat, req: Request, job: Job, r: Result<Payment, Failure>)
      reads this
    {
      match r
      case Ok(row) => At(p, AfterTransition(req, job, row))
      case Err(e) =>
        if e == StateTransition then At(p, Refused(req, job))
        else if e == Duplicate then req.ToConfirmed? && At(p, Conflicted)
        else e == OperationFailed && Stopped(p, req)
    }

    method LoadCurrent(p: nat, req: Request, job: Job, fault: Fault) returns (r: Result<Payment, Failure>)
      requires Valid() && At(p, Read(req, job))
      modifies this`procs, this`ran
      ensures Valid() && old(ran) <= ran && Waiting(old(procs), procs, p, |old(procs)|)
      ensures if r.Ok? then At(p, CompareAndSet(req, job, r.value)) else Lands(p, req, job, Err(r.error))
      ensures fault == NoFault ==> (r.Ok? <==> MayMove(payments, req))
      ensures r.Err? ==> r.error == if fault == NoFault then StateTransition else OperationFailed
    {
      if fault != NoFault {
        Continue(p, DatabaseError(None), Go(p, 0, Down, fault));
        return Err(OperationFailed);
      }
      var current := FindUnique(req.id);
      if current.None? || current.value.status !in AllowedFrom(req.Goal()) {
        Continue(p, Refused(req, job), Go(p, 0, Down, fault));
        return Err(StateTransition);
      }
      Continue(p, CompareAndSet(req, job, current.value), Go(p, 0, Down, fault));
      r := Ok(current.value);
    }

    /** True if this worker made the change, false if the row had moved on. */
    method Swap(p: nat, req: Request, job: Job, current: Payment, fault: Fault) returns (r: Result<bool, Failure>)
      requires Valid() && At(p, CompareAndSet(req, job, current))
      modifies this`payments, this`trails, this`procs, this`ran
      ensures Valid() && old(ran) <= ran && Waiting(old(procs), procs, p, |old(procs)|)
      ensures if r.Ok? then At(p, if r.value then Reload(req, job, current) else LostReload(req, job, current))
              else Lands(p, req, job, Err(r.error))
      ensures r.Err? ==> r.error == if fault == NoFault then Duplicate else OperationFailed
      ensures fault == NoFault && MayMove(old(payments), req) ==> Swapped(old(payments), payments, req, r)
    {
      KeysAgree();
      GuardsAre(req);
      SwapTurn(chain, Now(), p, req, job, current, fault);
      var next := AfterSwap(Now(), req, job, current, fault);
      var result := UpdateMany(req, fault);
      Continue(p, next, Go(p, 0, Down, fault));
      r := if result == Threw then Err(OperationFailed)
           else if result == UniqueViolation then Err(Duplicate) else Ok(result == Count(1));
    }

    method ReloadAfterLoss(p: nat, req: Request, job: Job, current: Payment, fault: Fault) returns (r: Result<Payment, Failure>)
      requires Valid() && At(p, LostReload(req, job, current))
      modifies this`procs, this`ran
      ensures Valid() && old(ran) <= ran && Waiting(old(procs), procs, p, |old(procs)|)
      ensures Lands(p, req, job, r)
      ensures r.Err? ==> r.error == if fault == NoFault then StateTransition else OperationFailed
    {
      if fault != NoFault {
        Continue(p, DatabaseError(None), Go(p, 0, Down, Before));
        return Err(OperationFailed);
      }
      var reloaded := FindUnique(req.id);
      if reloaded.Some? && reloaded.value.status == req.Goal() {
        Continue(p, AfterTransition(req, job, reloaded.value), Go(p, 0, Down, fault));
        return Ok(reloaded.value);
      }
      Continue(p, Refused(req, job), Go(p, 0, Down, fault));
      r := Err(StateTransition);
    }

    /** The row is still there: payments are never deleted. Only a failing read stops the winner. */
    method ReloadUpdated(p: nat, req: Request, job: Job, current: Payment, fault: Fault) returns (r: Result<Payment, Failure>)
      requires Valid() && At(p, Reload(req, job, current))
      modifies this`procs, this`ran
      ensures Valid() && old(ran) <= ran && Waiting(old(procs), procs, p, |old(procs)|)
      ensures r.Ok? <==> fault == NoFault
      ensures if r.Ok? then At(p, EmitEvent(req, job, r.value)) else r.error == OperationFailed && Stopped(p, req)
      ensures r.Ok? ==> req.id in payments && r.value == payments[req.id] && r.value.id == req.id
    {
      if fault != NoFault {
        Continue(p, DatabaseError(Some((req.id, req.Goal()))), Go(p, 0, Down, Before));
        return Err(OperationFailed);
      }
      RowIsThere(p);
      StatusIsHeld(req.id);
      Continue(p, EmitEvent(req, job, payments[req.id]), Go(p, 0, Down, fault));
      r := Ok(payments[req.id]);
    }

    /** The index always has room: no other worker has logged this event. Only a failing insert stops the winner. */
    method Emit(p: nat, req: Request, job: Job, updated: Payment, fault: Fault) returns (ok: bool)
      requires Valid() && At(p, EmitEvent(req, job, updated))
      modifies this`events, this`procs, this`ran
      ensures Valid() && old(ran) <= ran && Waiting(old(procs), procs, p, |old(procs)|)
      ensures ok <==> fault == NoFault
      ensures if ok then At(p, AfterTransition(req, job, updated)) else Stopped(p, req)
      ensures Logged(Now(), updated.id, req.Goal()) <==> fault != Before
      ensures ok ==> events == old(events) + [Event(updated.id, req.Goal(), updated)]
    {
      EventIsNew(p);
      var room := CreateEvent(updated, req.Goal(), fault);
      assert room && (fault != Before ==> events[|old(events)|] == Event(updated.id, req.Goal(), updated));
      ok := fault == NoFault;
      Continue(p,
               if ok then AfterTransition(req, job, updated)
               else DatabaseError(if fault == Before then Some((req.id, req.Goal())) else None),
               Go(p, 0, Down, fault));
    }

    /** The rest of `transition` once the compare-and-set is decided. */
    method Finish(p: nat, ghost hi: nat, req: Request, job: Job, current: Payment, won: bool, gap: Pauses)
      returns (r: Result<Payment, Failure>)
      requires Valid() && At(p, if won then Reload(req, job, current) else LostReload(req, job, current))
      requires p < hi <= |procs| && gap.Others(p, hi)
      modifies this
      ensures Valid() && old(ran) <= ran && Waiting(old(procs), procs, p, hi)
      ensures Lands(p, req, job, r) && (r == Err(OperationFailed) ==> !gap.Fine())
      ensures won && gap.Quiet() ==>
        Announced(old(payments), old(events), events, req, r) && payments == old(payments) && links == old(links)
    {
      if won {
        r := FinishWon(p, hi, req, job, current, gap);
      } else {
        r := ReloadAfterLoss(p, req, job, current, gap.reload.fault);
      }
    }

    /** Reload and log: nothing but a failing operation stops a winner. */
    method FinishWon(p: nat, ghost hi: nat, req: Request, job: Job, current: Payment, gap: Pauses)
      returns (r: Result<Payment, Failure>)
      requires Valid() && At(p, Reload(req, job, current)) && p < hi <= |procs| && gap.Others(p, hi)
      modifies this
      ensures Valid() && old(ran) <= ran && Waiting(old(procs), procs, p, hi)
      ensures Lands(p, req, job, r) && (r.Err? ==> r.error == OperationFailed && !gap.Fine())
      ensures gap.Quiet() ==>
        Announced(old(payments), old(events), events, req, r) && payments == old(payments) && links == old(links)
    {
      r := ReloadUpdated(p, req, job, current, gap.reload.fault);
      if r.Err? { return; }
      Interfere(p, hi, gap.emit.others);
      var ok := Emit(p, req, job, r.value, gap.emit.fault);
      if !ok { r := Err(OperationFailed); }
    }

    method SwapLater(p: nat, ghost hi: nat, req: Request, job: Job, current: Payment, gap: Pause)
      returns (r: Result<bool, Failure>)
      requires Valid() && At(p, CompareAndSet(req, job, current)) && p < hi <= |procs| && gap.Others(p, hi)
      modifies this
      ensures Valid() && old(ran) <= ran && Waiting(old(procs), procs, p, hi)
      ensures if r.Ok? then At(p, if r.value then Reload(req, job, current) else LostReload(req, job, current))
              else Lands(p, req, job, Err(r.error))
      ensures r == Err(OperationFailed) ==> !gap.Fine()
      ensures gap.Quiet() && MayMove(old(payments), req) ==>
        Swapped(old(payments), payments, req, r) && events == old(events) && links == old(links)
    {
      Interfere(p, hi, gap.others);
      r := Swap(p, req, job, current, gap.fault);
    }

    /** Load and compare-and-set. */
    method Attempt(p: nat, ghost hi: nat, req: Request, job: Job, gap: Pauses) returns (r: Result<(Payment, bool), Failure>)
      requires Valid() && At(p, Read(req, job)) && p < hi <= |procs| && gap.Others(p, hi)
      modifies this
      ensures Valid() && old(ran) <= ran && Waiting(old(procs), procs, p, hi)
      ensures if r.Ok? then At(p, if r.value.1 then Reload(req, job, r.value.0) else LostReload(req, job, r.value.0))
              else Lands(p, req, job, Err(r.error))
      ensures r == Err(OperationFailed) ==> !gap.Fine()
      ensures gap.Quiet() ==> Tried(old(payments), payments, req, r) && events == old(events) && links == old(links)
    {
      var loaded := LoadCurrent(p, req, job, gap.read.fault);
      if loaded.Err? { return Err(loaded.error); }
      var swapped := SwapLater(p, hi, req, job, loaded.value, gap.write);
      if swapped.Err? { return Err(swapped.error); }
      r := Ok((loaded.value, swapped.value));
    }

    /**
     * `transition`: what it returns or throws is where the worker ends, whatever fails and whatever the others do
     * meanwhile. A failing operation is the only way it throws anything but a refusal or, for a confirmation, a
     * duplicate; what it may have written then is said by the place where it stopped.
     */
    method Transition(p: nat, ghost hi: nat, req: Request, job: Job, gap: Pauses) returns (r: Result<Payment, Failure>)
      requires Valid() && At(p, Read(req, job)) && p < hi <= |procs| && gap.Others(p, hi)
      modifies this
      ensures Valid() && old(ran) <= ran && Waiting(old(procs), procs, p, hi)
      ensures Lands(p, req, job, r) && (r == Err(OperationFailed) ==> !gap.Fine())
      ensures gap.Quiet() ==> Transitioned(old(payments), payments, old(events), events, req, r) && links == old(links)
    {
      Interfere(p, hi, gap.read.others);
      var attempt := Attempt(p, hi, req, job, gap);
      if attempt.Err? { return Err(attempt.error); }
      var (current, won) := attempt.value;
      Interfere(p, hi, gap.reload.others);
      r := Finish(p, hi, req, job, current, won, gap);
    }

    // ---------- what an outcome says about the store ----------

    /** A worker that returned from a transition has found its goal held, and holds a row that shows it or more. */
    lemma ReturnedMeansHeld(p: nat, req: Request, job: Job, row: Payment)
      requires Valid() && (At(p, Returned(req, job, row)) || At(p, SyncLink(req, job, row)))
      ensures Reached(Now(), req, row) && HeldBy(Now(), (req.id, req.Goal()))
    {
      ValidMeansInv();
      ReachedMeansHeld(Now(), procs[p], req, row);
    }

    lemma StatusIsHeld(id: nat)
      requires Valid() && id in payments
      ensures payments[id].id == id && HeldBy(Now(), (id, payments[id].status))
    {
      ValidMeansInv();
      assert RowOk(Now(), id);
    }

    /** Held statuses stay held. */
    lemma StillHeld(before: World, early: seq<Turn>, key: (nat, Status))
      requires Valid() && before == Run(chain, INIT, early) && early <= ran && HeldBy(before, key)
      ensures HeldBy(Now(), key)
    {
      var rest := ran[|early|..];
      assert early + rest == ran;
      InitOk();
      RunKeeps(chain, INIT, early);
      RunAppend(chain, INIT, early, rest);
      RunKeeps(chain, before, rest);
      KeyStays(before, Now(), key);
    }

    lemma ConfirmedIsBacked(id: nat)
      requires Valid() && HeldBy(Now(), (id, Confirmed))
      ensures exists r :: Backs(chain, r, payments[id])
    {
      ValidMeansInv();
      InitOk();
      RunAttributed(chain, INIT, ran);
      assert RowOk(Now(), id);
      assert RowAttributed(chain, payments[id]);
    }

    lemma LinkIsHere(p: nat)
      requires Valid() && p < |procs| && procs[p].SyncLink?
      ensures procs[p].row.linkId in links
    {
      ValidMeansInv();
      LinkIsThere(Now(), p);
    }

    // ---------- ReconcilerService ----------

    /** Nothing to write without a hash; otherwise the link is there, and only a failing update stops the worker. */
    method SyncCheckoutLink(p: nat, req: Request, job: Job, payment: Payment, fault: Fault) returns (ok: bool)
      requires Valid() && At(p, SyncLink(req, job, payment))
      modifies this`links, this`procs, this`ran
      ensures Valid() && old(ran) <= ran && Waiting(old(procs), procs, p, |old(procs)|)
      ensures ok <==> payment.transactionHash.None? || fault == NoFault
      ensures if ok then At(p, Returned(req, job, payment)) else At(p, DatabaseError(None))
      ensures links == if payment.transactionHash.None? || fault == Before then old(links)
                       else old(links)[payment.linkId := payment.transactionHash]
    {
      if payment.transactionHash.None? {
        Continue(p, Returned(req, job, payment), Go(p, 0, Down, NoFault));
        return true;
      }
      LinkIsHere(p);
      if fault != Before {
        links := links[payment.linkId := payment.transactionHash];
      }
      ok := fault == NoFault;
      Continue(p, if ok then Returned(req, job, payment) else DatabaseError(None), Go(p, 0, Down, fault));
    }

    /** `expirePayment`: false for a refusal; only a failing operation is thrown on. */
    method ExpirePayment(p: nat, ghost hi: nat, id: nat, job: Job, gap: Pauses) returns (r: Result<bool, Failure>)
      requires Valid() && At(p, Read(ToExpired(id), job)) && p < hi <= |procs| && gap.Others(p, hi)
      modifies this
      ensures Valid() && old(ran) <= ran && Waiting(old(procs), procs, p, hi)
      ensures r == Ok(true) ==> HeldBy(Now(), (id, Expired))
      ensures r.Err? ==> r.error == OperationFailed && !gap.Fine() && Stopped(p, ToExpired(id))
      ensures gap.Quiet() ==>
        && r.Ok? && Expires(old(payments), payments, id, r.value) && links == old(links)
        && Noted(old(payments), payments, old(events), events, id)
    {
      var done := Transition(p, hi, ToExpired(id), job, gap);
      if gap.Quiet() { ExpiringIs(old(payments), payments, old(events), events, id, done); }
      if done.Ok? {
        ReturnedMeansHeld(p, ToExpired(id), job, done.value);
        return Ok(true);
      }
      r := if done.error == StateTransition then Ok(false) else Err(done.error);
    }

    /** Show the confirmed or completed payment on its checkout link. */
    method SyncAfter(p: nat, ghost hi: nat, req: Request, job: Job, payment: Payment, gap: Pause) returns (ok: bool)
      requires Valid() && At(p, SyncLink(req, job, payment)) && p < hi <= |procs| && gap.Others(p, hi)
      modifies this
      ensures Valid() && old(ran) <= ran && Waiting(old(procs), procs, p, hi)
      ensures if ok then At(p, Returned(req, job, payment)) else !gap.Fine() && At(p, DatabaseError(None))
      ensures HeldBy(Now(), (req.id, req.Goal()))
      ensures gap.Quiet() ==>
        && ok && payments == old(payments) && events == old(events)
        && links == if payment.transactionHash.None? then old(links) else old(links)[payment.linkId := payment.transactionHash]
    {
      Interfere(p, hi, gap.others);
      ReturnedMeansHeld(p, req, job, payment);
      ghost var before, early := Now(), ran;
      ok := SyncCheckoutLink(p, req, job, payment, gap.fault);
      StillHeld(before, early, (req.id, req.Goal()));
    }

    /** What an outcome of `reconcilePayment` or `finalizePayment` promises about the payment. */
    ghost predicate Promised(id: nat, outcome: Outcome)
      reads this
    {
      && (outcome == DidConfirm ==>
            HeldBy(Now(), (id, Confirmed)) && id in payments && exists r :: Backs(chain, r, payments[id]))
      && (outcome == DidFail ==> HeldBy(Now(), (id, Failed)))
      && (outcome == DidComplete ==> HeldBy(Now(), (id, Completed)))
    }

    /** The job itself is not in the store; adding it may fail, and the payment stays confirmed. */
    method EnqueueFinalityCheck(p: nat, ghost hi: nat, req: Request, payment: Payment, gap: Pause) returns (ok: bool)
      requires Valid() && At(p, Returned(req, Reconcile, payment)) && req.ToConfirmed? && p < hi <= |procs| && gap.Others(p, hi)
      modifies this
      ensures Valid() && old(ran) <= ran && Waiting(old(procs), procs, p, hi)
      ensures ok == gap.Fine() && Promised(req.id, DidConfirm)
      ensures gap.Quiet() ==> payments == old(payments) && events == old(events) && links == old(links)
    {
      Interfere(p, hi, gap.others);
      ReturnedMeansHeld(p, req, Reconcile, payment);
      ConfirmedIsBacked(req.id);
      ok := gap.fault == NoFault;
    }

    /** Show the confirmed payment on its link and queue its finality check. */
    method Announce(p: nat, ghost hi: nat, req: Request, payment: Payment, gap: LongPauses) returns (ok: bool)
      requires Valid() && At(p, SyncLink(req, Reconcile, payment)) && req.ToConfirmed? && p < hi <= |procs| && gap.Others(p, hi)
      modifies this
      ensures Valid() && old(ran) <= ran && Waiting(old(procs), procs, p, hi)
      ensures if ok then gap.queue.Fine() && Promised(req.id, DidConfirm)
              else !gap.Fine() && (Stopped(p, req) || (!gap.queue.Fine() && Promised(req.id, DidConfirm)))
      ensures gap.Quiet() ==>
        && ok && payments == old(payments) && events == old(events)
        && links == if payment.transactionHash.None? then old(links) else old(links)[payment.linkId := payment.transactionHash]
    {
      ok := SyncAfter(p, hi, req, Reconcile, payment, gap.sync);
      if ok {
        ok := EnqueueFinalityCheck(p, hi, req, payment, gap.queue);
      }
    }

    /**
     * The confirming branch: a lost race and a taken hash are skipped, a failing operation is thrown on. When it is the
     * finality check that cannot be queued, the payment has been confirmed all the same and its link is in step.
     */
    method Confirm(p: nat, ghost hi: nat, id: nat, tx: TransactionData, now: int, gap: LongPauses)
      returns (r: Result<Outcome, Failure>)
      requires Valid() && At(p, Read(ToConfirmed(id, tx, now), Reconcile)) && p < hi <= |procs| && gap.Others(p, hi)
      modifies this
      ensures Valid() && old(ran) <= ran && Waiting(old(procs), procs, p, hi)
      ensures r.Ok? ==> r.value in {DidSkip, DidConfirm} && Promised(id, r.value)
      ensures r == Ok(DidConfirm) ==> gap.queue.Fine()
      ensures r.Err? ==> r.error == OperationFailed && !gap.Fine()
      ensures r.Err? ==> Stopped(p, ToConfirmed(id, tx, now)) || (!gap.queue.Fine() && Promised(id, DidConfirm))
      ensures gap.Quiet() ==>
        && r.Ok? && Confirms(old(payments), payments, id, tx, now, r.value == DidConfirm)
        && Followed(old(payments), payments, old(events), events, old(links), links, id)
    {
      var req := ToConfirmed(id, tx, now);
      var confirmed := Transition(p, hi, req, Reconcile, gap.call);
      if gap.Quiet() {
        ConfirmingIs(old(payments), payments, old(events), events, id, tx, now, confirmed);
      }
      if confirmed.Err? {
        return if confirmed.error == OperationFailed then Err(OperationFailed) else Ok(DidSkip);
      }
      var announced := Announce(p, hi, req, confirmed.value, gap);
      r := if announced then Ok(DidConfirm) else Err(OperationFailed);
    }

    method Fail(p: nat, ghost hi: nat, id: nat, code: string, job: Job, gap: Pauses) returns (r: Result<Outcome, Failure>)
      requires Valid() && At(p, Read(ToFailed(id, code), job)) && p < hi <= |procs| && gap.Others(p, hi)
      modifies this
      ensures Valid() && old(ran) <= ran && Waiting(old(procs), procs, p, hi)
      ensures r.Ok? ==> r.value in {DidSkip, DidFail} && Promised(id, r.value)
      ensures r.Err? ==> r.error == OperationFailed && !gap.Fine() && Stopped(p, ToFailed(id, code))
      ensures gap.Quiet() ==>
        && r.Ok? && Fails(old(payments), payments, id, code, r.value == DidFail) && links == old(links)
        && Noted(old(payments), payments, old(events), events, id)
    {
      var failed := Transition(p, hi, ToFailed(id, code), job, gap);
      if gap.Quiet() { FailingIs(old(payments), payments, old(events), events, id, code, failed); }
      if failed.Err? {
        return if failed.error == StateTransition then Ok(DidSkip) else Err(failed.error);
      }
      ReturnedMeansHeld(p, ToFailed(id, code), job, failed.value);
      r := Ok(DidFail);
    }

    /** What a worker may throw: a malformed amount, or an operation that failed. */
    predicate Excused(e: Failure, fine: bool) {
      e == BadAmount || (e == OperationFailed && !fine)
    }

    /** `reconcilePayment` once the verifier has answered. */
    method Conclude(p: nat, ghost hi: nat, payment: Payment, verdict: VerifyResult, now: int, gap: LongPauses)
      returns (r: Result<Outcome, Failure>)
      requires Valid() && At(p, AfterVerdict(payment, verdict, now)) && p < hi <= |procs| && gap.Others(p, hi)
      modifies this
      ensures Valid() && old(ran) <= ran && Waiting(old(procs), procs, p, hi)
      ensures r.Ok? ==> Promised(payment.id, r.value)
      ensures r.Err? ==> Excused(r.error, gap.Fine()) && (r.error == BadAmount ==> verdict.Raised?)
      ensures gap.Quiet() && Awaits(old(payments), payment) ==>
        && Concluded(old(payments), payments, payment.id, verdict, now, r)
        && Followed(old(payments), payments, old(events), events, old(links), links, payment.id)
    {
      if verdict.Raised? { return Err(BadAmount); }
      r := Ok(NoMatchYet);
      if verdict.Match? {
        var paid := verdict.payment;
        r := Confirm(p, hi, payment.id, TransactionData(paid.transactionHash, paid.from, paid.assetIssuer), now, gap);
      } else if verdict.code == DuplicateHash {
        r := Ok(DidSkip);
      } else if verdict.code == LateArrival {
        var expired := ExpirePayment(p, hi, payment.id, Reconcile, gap.call);
        r := if expired.Ok? then Ok(DidExpire) else Err(expired.error);
      } else if verdict.code == WrongAsset || verdict.code == WrongIssuer {
        r := Fail(p, hi, payment.id, "wrong_asset", Reconcile, gap.call);
      } else if verdict.code == InsufficientAmount {
        r := Fail(p, hi, payment.id, "insufficient_amount", Reconcile, gap.call);
      } else if verdict.code == WrongAmount {
        r := Fail(p, hi, payment.id, "wrong_amount", Reconcile, gap.call);
      }
    }

    /** The verdict on the records, knowing the hashes that other payments hold now. */
    method AskVerifier(p: nat, payment: Payment, records: seq<HorizonRecord>, now: int)
      returns (verdict: VerifyResult, ghost known: set<string>)
      requires Valid() && At(p, LoadHashes(payment, records))
      modifies this`procs, this`ran
      ensures Valid() && old(ran) <= ran && Waiting(old(procs), procs, p, |old(procs)|) &&
        At(p, AfterVerdict(payment, verdict, now))
      ensures verdict == FirstMatch(payment.terms, records, known, chain.issuers)
      ensures forall x | x in records :: x.transactionHash in known <==> HeldByOther(payments, payment.id, x.transactionHash)
    {
      ForeignMeansHeld(Now(), records, payment.id);
      VerdictTurn(chain, Now(), p, payment, records, now);
      var foreign := ForeignHashes(Now(), records, payment.id);
      verdict := Verify(payment.terms, records, foreign, chain.issuers);
      known := foreign;
      Continue(p, AfterVerdict(payment, verdict, now), Go(p, now, Down, NoFault));
    }

    /** Load the hashes of other payments and ask the verifier. */
    method Judge(p: nat, ghost hi: nat, payment: Payment, records: seq<HorizonRecord>, now: int, gap: LongPauses)
      returns (r: Result<Outcome, Failure>)
      requires Valid() && At(p, LoadHashes(payment, records)) && p < hi <= |procs| && gap.Others(p, hi)
      modifies this
      ensures Valid() && old(ran) <= ran && Waiting(old(procs), procs, p, hi)
      ensures r.Ok? ==> Promised(payment.id, r.value)
      ensures r.Err? ==> Excused(r.error, gap.Fine())
      ensures gap.Quiet() && Awaits(old(payments), payment) ==>
        && Reconciled(old(payments), payments, payment.id, records, chain.issuers, now, r)
        && Followed(old(payments), payments, old(events), events, old(links), links, payment.id)
    {
      if gap.second.fault != NoFault {
        Continue(p, DatabaseError(None), Go(p, now, Down, Before));
        return Err(OperationFailed);
      }
      var verdict, known := AskVerifier(p, payment, records, now);
      r := Carry(p, hi, payment, records, known, verdict, now, gap);
    }

    /** Act on the verdict, which is the answer to these records. */
    method Carry(
      p: nat, ghost hi: nat, payment: Payment, ghost records: seq<HorizonRecord>, ghost known: set<string>, verdict: VerifyResult,
      now: int, gap: LongPauses)
      returns (r: Result<Outcome, Failure>)
      requires Valid() && At(p, AfterVerdict(payment, verdict, now)) && p < hi <= |procs| && gap.Others(p, hi)
      requires verdict == FirstMatch(payment.terms, records, known, chain.issuers)
      requires forall x | x in records :: x.transactionHash in known <==> HeldByOther(payments, payment.id, x.transactionHash)
      modifies this
      ensures Valid() && old(ran) <= ran && Waiting(old(procs), procs, p, hi)
      ensures r.Ok? ==> Promised(payment.id, r.value)
      ensures r.Err? ==> Excused(r.error, gap.Fine())
      ensures gap.Quiet() && Awaits(old(payments), payment) ==>
        && Reconciled(old(payments), payments, payment.id, records, chain.issuers, now, r)
        && Followed(old(payments), payments, old(events), events, old(links), links, payment.id)
    {
      r := Conclude(p, hi, payment, verdict, now, gap);
      if gap.Quiet() && Awaits(old(payments), payment) {
        ConcludedIsReconciled(old(payments), payments, payment.id, records, known, chain.issuers, now, r);
      }
    }

    /**
     * `reconcilePayment`, for a row that the caller did not find overdue at `now`. `confirmed` is answered only when the
     * row's hash is that of an on-chain payment of its exact terms; what it throws is a malformed amount or a failing
     * operation, never a lost race or a taken hash.
     */
    method ReconcilePayment(p: nat, ghost hi: nat, payment: Payment, now: int, answer: Horizon, later: int, gap: LongPauses)
      returns (r: Result<Outcome, Failure>)
      requires Valid() && At(p, PollRow(payment)) && !PastDue(payment.terms, now) && p < hi <= |procs| && gap.Others(p, hi)
      requires answer.Listing? ==> forall x | x in answer.records :: x in chain.ledger
      modifies this
      ensures Valid() && old(ran) <= ran && Waiting(old(procs), procs, p, hi)
      ensures r.Ok? ==> Promised(payment.id, r.value)
      ensures r.Err? ==> Excused(r.error, gap.Fine())
      ensures payment.status != Pending || payment.transactionHash.Some? ==> r == Ok(DidSkip) && payments == old(payments)
      ensures payment.status == Pending && payment.transactionHash.None? && !answer.Listing? ==> r == Ok(HorizonUnavailable)
      ensures gap.Quiet() && Awaits(old(payments), payment) ==>
        && Polled(old(payments), payments, payment, answer, chain.issuers, now, later, r)
        && Followed(old(payments), payments, old(events), events, old(links), links, payment.id)
    {
      if payment.status != Pending || payment.transactionHash.Some? {
        Continue(p, Skipped, Go(p, now, answer, NoFault));
        return Ok(DidSkip);
      }
      Continue(p, ListHorizon(payment), Go(p, now, answer, NoFault));
      Interfere(p, hi, gap.first.others);
      r := QueryHorizon(p, hi, payment, now, answer, later, gap);
    }

    /** Every error of the listing is caught. */
    method QueryHorizon(p: nat, ghost hi: nat, payment: Payment, now: int, answer: Horizon, later: int, gap: LongPauses)
      returns (r: Result<Outcome, Failure>)
      requires Valid() && At(p, ListHorizon(payment)) && p < hi <= |procs| && gap.Others(p, hi)
      requires answer.Listing? ==> forall x | x in answer.records :: x in chain.ledger
      modifies this
      ensures Valid() && old(ran) <= ran && Waiting(old(procs), procs, p, hi)
      ensures r.Ok? ==> Promised(payment.id, r.value)
      ensures r.Err? ==> Excused(r.error, gap.Fine())
      ensures !answer.Listing? ==>
        r == Ok(HorizonUnavailable) && payments == old(payments) && events == old(events) && links == old(links)
      ensures answer.Listing? && gap.Quiet() && Awaits(old(payments), payment) ==>
        && Reconciled(old(payments), payments, payment.id, answer.records, chain.issuers, later, r)
        && Followed(old(payments), payments, old(events), events, old(links), links, payment.id)
    {
      if !answer.Listing? {
        Continue(p, Skipped, Go(p, now, answer, NoFault));
        return Ok(HorizonUnavailable);
      }
      Continue(p, LoadHashes(payment, answer.records), Go(p, now, answer, NoFault));
      r := JudgeLater(p, hi, payment, answer.records, later, gap);
    }

    method JudgeLater(p: nat, ghost hi: nat, payment: Payment, records: seq<HorizonRecord>, now: int, gap: LongPauses)
      returns (r: Result<Outcome, Failure>)
      requires Valid() && At(p, LoadHashes(payment, records)) && p < hi <= |procs| && gap.Others(p, hi)
      modifies this
      ensures Valid() && old(ran) <= ran && Waiting(old(procs), procs, p, hi)
      ensures r.Ok? ==> Promised(payment.id, r.value)
      ensures r.Err? ==> Excused(r.error, gap.Fine())
      ensures gap.Quiet() && Awaits(old(payments), payment) ==>
        && Reconciled(old(payments), payments, payment.id, records, chain.issuers, now, r)
        && Followed(old(payments), payments, old(events), events, old(links), links, payment.id)
    {
      Interfere(p, hi, gap.second.others);
      r := Judge(p, hi, payment, records, now, gap);
    }

    /** The body of the loop of `pollOpenPayments`: expire first if the clock has passed. */
    method PollPayment(p: nat, ghost hi: nat, payment: Payment, round: Round) returns (r: Result<Outcome, Failure>)
      requires Valid() && At(p, PollRow(payment)) && p < hi <= |procs| && round.gap.Others(p, hi)
      requires round.answer.Listing? ==> forall x | x in round.answer.records :: x in chain.ledger
      modifies this
      ensures Valid() && old(ran) <= ran && Waiting(old(procs), procs, p, hi)
      ensures r.Ok? ==> Promised(payment.id, r.value)
      ensures r.Err? ==> Excused(r.error, round.gap.Fine())
      ensures round.gap.Quiet() && Awaits(old(payments), payment) ==>
        && Polled(old(payments), payments, payment, round.answer, chain.issuers, round.now, round.later, r)
        && Followed(old(payments), payments, old(events), events, old(links), links, payment.id)
    {
      if !Overdue(payment, round.now) {
        r := ReconcilePayment(p, hi, payment, round.now, round.answer, round.later, round.gap);
        return;
      }
      Continue(p, Read(ToExpired(payment.id), Reconcile), Go(p, round.now, round.answer, NoFault));
      var expired := ExpirePayment(p, hi, payment.id, Reconcile, round.gap.call);
      r := if expired.Ok? then Ok(DidExpire) else Err(expired.error);
    }

    lemma RowIds()
      requires Valid()
      ensures forall id | id in payments :: payments[id].id == id
    {
      ValidMeansInv();
      assert forall id | id in payments :: RowOk(Now(), id);
    }

    lemma PendingIsUnpaid()
      requires Valid()
      ensures forall id | id in payments && payments[id].status == Pending ::
        payments[id].id == id && payments[id].transactionHash.None?
    {
      ValidMeansInv();
      forall id | id in payments && payments[id].status == Pending
        ensures payments[id].id == id && payments[id].transactionHash.None?
      {
        assert RowOk(Now(), id);
        PendingIsEarly(trails[id]);
      }
    }

    /** One row of the scan: a process that holds the row as it is now. */
    method ScanPendingRow(id: nat)
      requires Valid() && id in payments && payments[id].status == Pending
      modifies this`procs, this`ran
      ensures Valid() && old(ran) <= ran && procs == old(procs) + [PollRow(payments[id])]
    {
      Extend(Start(ScanPending(id)));
      procs := procs + [ScanPending(id)];
      ran := ran + [Start(ScanPending(id))];
      Continue(|procs| - 1, PollRow(payments[id]), Go(|procs| - 1, 0, Down, NoFault));
    }

    /** The query: every row is read in one go. */
    method ScanPendingRows(ids: seq<nat>) returns (rows: seq<Payment>)
      requires Valid() && forall id | id in ids :: id in payments && payments[id].status == Pending
      modifies this`procs, this`ran
      ensures Valid() && old(ran) <= ran && |rows| == |ids| && |procs| == |old(procs)| + |rows|
      ensures Queued(procs, |old(procs)|, rows, 0) && forall i | 0 <= i < |rows| :: rows[i] == payments[ids[i]] && rows[i].id == ids[i]
    {
      RowIds();
      rows := [];
      while |rows| < |ids|
        invariant Valid() && old(ran) <= ran && |rows| <= |ids| && |procs| == |old(procs)| + |rows|
        invariant Queued(procs, |old(procs)|, rows, 0) && forall i | 0 <= i < |rows| :: rows[i] == payments[ids[i]] && rows[i].id == ids[i]
        invariant forall id | id in payments :: payments[id].id == id
      {
        var id := ids[|rows|];
        ScanPendingRow(id);
        rows := rows + [payments[id]];
      }
    }

    lemma StillReckoned(before: World, early: seq<Turn>, ids: set<nat>, count: nat, status: Status, scanned: seq<nat>)
      requires Valid() && before == Run(chain, INIT, early) && early <= ran && Reckoned(before, ids, count, status, scanned)
      ensures Reckoned(Now(), ids, count, status, scanned)
    {
      forall id | id in ids ensures HeldBy(Now(), (id, status)) {
        StillHeld(before, early, (id, status));
      }
    }

    /** One more row has had its outcome. */
    lemma CountOne(
      before: World, early: seq<Turn>, ids: seq<nat>, i: nat,
      outcomes: map<Outcome, nat>, confirmed: set<nat>, failed: set<nat>, outcome: Outcome)
      requires Valid() && before == Run(chain, INIT, early) && early <= ran
      requires i < |ids| && (forall j | 0 <= j < i :: ids[j] != ids[i]) && Promised(ids[i], outcome)
      requires Counters(before, outcomes, confirmed, failed, ids[..i])
      ensures Counters(Now(), Bump(outcomes, outcome),
                       Noting(confirmed, outcome == DidConfirm, ids[i]), Noting(failed, outcome == DidFail, ids[i]), ids[..i + 1])
    {
      StillReckoned(before, early, confirmed, Get(outcomes, DidConfirm), Confirmed, ids[..i]);
      StillReckoned(before, early, failed, Get(outcomes, DidFail), Failed, ids[..i]);
      ReckonedOne(Now(), confirmed, Get(outcomes, DidConfirm), Confirmed, ids, i, outcome == DidConfirm);
      ReckonedOne(Now(), failed, Get(outcomes, DidFail), Failed, ids, i, outcome == DidFail);
    }

    /**
     * `pollOpenPayments` over the rows the query found. It throws only for a malformed amount or a failing operation, met
     * at the row it had come to. If it does not throw, each row gets exactly one outcome, the
     * outcomes counted add up to the rows processed, and the confirmed and failed counters are the numbers of scanned
     * payments that have been confirmed, with a hash of an on-chain payment of their terms, or failed, as it saw it.
     * Undisturbed, each round takes the rows from one stage to the next as that row, the clock and Horizon's answer
     * demand, and the counters count those answers.
     */
    method PollOpenPayments(ids: seq<nat>, rounds: seq<Round>)
      returns (processed: nat, outcomes: map<Outcome, nat>, thrown: Option<Failure>, ghost confirmed: set<nat>, ghost failed: set<nat>,
               ghost stages: seq<Rows>, ghost answers: seq<Outcome>)
      requires Valid() && forall id | id in ids :: id in payments && payments[id].status == Pending
      requires forall i, j | 0 <= i < j < |ids| :: ids[i] != ids[j]
      requires |rounds| == |ids| && RoundsOk(chain, rounds, |procs|, |procs| + |ids|)
      modifies this
      ensures Valid() && old(ran) <= ran
      ensures thrown.Some? ==> processed < |ids| && Excused(thrown.value, rounds[processed].gap.Fine())
      ensures thrown.None? ==> processed == |ids| && Counters(Now(), outcomes, confirmed, failed, ids)
      ensures thrown.None? ==> forall id | id in confirmed :: id in payments && exists r :: Backs(chain, r, payments[id])
      ensures |answers| == processed && CountsOf(outcomes, answers)
      ensures RoundsQuiet(rounds) && thrown.None? ==>
        StagesOk(chain.issuers, old(payments), payments, FoundRows(old(payments), ids), rounds, stages, answers)
    {
      ghost var lo, rows := |procs|, payments;
      var next := |procs|;
      PendingIsUnpaid();
      var open := ScanPendingRows(ids);
      assert open == FoundRows(payments, ids) && StillAwaiting(payments, open, 0);
      ghost var hi := |procs|;
      outcomes, processed, thrown, confirmed, failed, stages, answers := map[], 0, None, {}, {}, [payments], [];
      while processed < |open|
        invariant Valid() && old(ran) <= ran && processed <= |open| == |ids| && next == lo + processed && hi == lo + |open| <= |procs|
        invariant RoundsOk(chain, rounds, lo, hi) && thrown.None? && Queued(procs, lo, open, processed)
        invariant forall i | 0 <= i < |open| :: open[i].id == ids[i]
        invariant Counters(Now(), outcomes, confirmed, failed, ids[..processed])
        invariant |answers| == processed && CountsOf(outcomes, answers)
        invariant PolledSoFar(chain.issuers, rows, payments, open, rounds, stages, answers)
      {
        var result := PollAndCount(next, lo, hi, ids, open, rounds, processed, rows, outcomes, confirmed, failed, stages, answers);
        if result.Err? { thrown := Some(result.error); return; }
        CountsBumped(outcomes, answers, result.value);
        stages, answers := stages + [payments], answers + [result.value];
        confirmed := Noting(confirmed, result.value == DidConfirm, ids[processed]);
        failed := Noting(failed, result.value == DidFail, ids[processed]);
        outcomes := Bump(outcomes, result.value);
        processed, next := processed + 1, next + 1;
      }
      assert ids[..processed] == ids;
      forall id | id in confirmed ensures id in payments && exists r :: Backs(chain, r, payments[id]) {
        ConfirmedIsBacked(id);
      }
    }

    /** One round of the poll loop with its bookkeeping. */
    method PollAndCount(
      next: nat, ghost lo: nat, ghost hi: nat, ids: seq<nat>, open: seq<Payment>, rounds: seq<Round>, i: nat, ghost rows: Rows,
      ghost outcomes: map<Outcome, nat>, ghost confirmed: set<nat>, ghost failed: set<nat>, ghost stages: seq<Rows>,
      ghost answers: seq<Outcome>)
      returns (r: Result<Outcome, Failure>)
      requires Valid() && i < |open| == |rounds| == |ids| && next == lo + i && hi == lo + |open| <= |procs|
      requires RoundsOk(chain, rounds, lo, hi) && Queued(procs, lo, open, i)
      requires (forall j, k | 0 <= j < k < |ids| :: ids[j] != ids[k]) && forall j | 0 <= j < |open| :: open[j].id == ids[j]
      requires Counters(Now(), outcomes, confirmed, failed, ids[..i]) && |answers| == i
      requires PolledSoFar(chain.issuers, rows, payments, open, rounds, stages, answers)
      modifies this
      ensures Valid() && old(ran) <= ran && hi <= |procs| && Queued(procs, lo, open, i + 1)
      ensures r.Err? ==> Excused(r.error, rounds[i].gap.Fine())
      ensures r.Ok? ==>
        && Counters(Now(), Bump(outcomes, r.value), Noting(confirmed, r.value == DidConfirm, ids[i]),
                    Noting(failed, r.value == DidFail, ids[i]), ids[..i + 1])
        && PolledSoFar(chain.issuers, rows, payments, open, rounds, stages + [payments], answers + [r.value])
    {
      ghost var before, early := Now(), ran;
      r := PollOne(next, lo, hi, open, rounds, i);
      if r.Ok? {
        CountOne(before, early, ids, i, outcomes, confirmed, failed, r.value);
        StageAdded(chain.issuers, rows, before.payments, payments, open, rounds, stages, answers, r.value);
      }
    }

    /** One round of the poll loop; the rows after it keep waiting. */
    method PollOne(next: nat, ghost lo: nat, ghost hi: nat, open: seq<Payment>, rounds: seq<Round>, i: nat)
      returns (r: Result<Outcome, Failure>)
      requires Valid() && i < |open| == |rounds| && next == lo + i && hi == lo + |open| <= |procs|
      requires RoundsOk(chain, rounds, lo, hi) && Queued(procs, lo, open, i)
      modifies this
      ensures Valid() && old(ran) <= ran && hi <= |procs| && Queued(procs, lo, open, i + 1)
      ensures r.Ok? ==> Promised(open[i].id, r.value)
      ensures r.Err? ==> Excused(r.error, rounds[i].gap.Fine())
      ensures rounds[i].gap.Quiet() && Awaits(old(payments), open[i]) ==>
        Polled(old(payments), payments, open[i], rounds[i].answer, chain.issuers, rounds[i].now, rounds[i].later, r)
    {
      assert rounds[i] in rounds;
      NarrowerGap(rounds[i].gap, lo, next, hi);
      ghost var was := procs;
      r := PollPayment(next, hi, open[i], rounds[i]);
      StillQueued(was, procs, lo, open, i);
    }

    method ScanOverdueRow(id: nat, now: int)
      requires Valid() && id in payments && payments[id].status in {Created, Pending} && Overdue(payments[id], now)
      modifies this`procs, this`ran
      ensures Valid() && old(ran) <= ran && procs == old(procs) + [Read(ToExpired(id), Expire)]
    {
      Extend(Start(ScanOverdue(id)));
      procs := procs + [ScanOverdue(id)];
      ran := ran + [Start(ScanOverdue(id))];
      Continue(|procs| - 1, Read(ToExpired(id), Expire), Go(|procs| - 1, now, Down, NoFault));
    }

    method ScanOverdueRows(ids: seq<nat>, now: int)
      requires Valid() && forall id | id in ids :: id in payments && payments[id].status in {Created, Pending} && Overdue(payments[id], now)
      modifies this`procs, this`ran
      ensures Valid() && old(ran) <= ran && |procs| == |old(procs)| + |ids| && Expiring(procs, |old(procs)|, ids, 0)
    {
      var i := 0;
      while i < |ids|
        invariant i <= |ids| && Valid() && old(ran) <= ran && |procs| == |old(procs)| + i
        invariant forall k | 0 <= k < i :: procs[|old(procs)| + k] == Read(ToExpired(ids[k]), Expire)
      {
        ScanOverdueRow(ids[i], now);
        i := i + 1;
      }
    }

    /**
     * `expireOverduePayments`, if it does not throw: the count it returns is the number of rows, among those found, that
     * it saw expired.
     */
    method ExpireOverduePayments(ids: seq<nat>, now: int, gaps: seq<Pauses>)
      returns (count: nat, threw: bool, ghost seen: set<nat>)
      requires Valid()
      requires forall id | id in ids :: id in payments && payments[id].status in {Created, Pending} && PastDue(payments[id].terms, now)
      requires (forall i, j | 0 <= i < j < |ids| :: ids[i] != ids[j])
      requires |gaps| == |ids| && forall i | 0 <= i < |gaps| :: gaps[i].Others(|procs|, |procs| + |ids|)
      modifies this
      ensures Valid() && old(ran) <= ran
      ensures threw ==> exists i :: 0 <= i < |gaps| && !gaps[i].Fine()
      ensures count == |seen| && (!threw ==> Reckoned(Now(), seen, count, Expired, ids))
      ensures AllQuiet(gaps) ==> !threw && count == |ids| && ExpiredAll(old(payments), payments, ids)
    {
      ghost var lo, rows := |procs|, payments;
      var next := |procs|;
      ScanOverdueRows(ids, now);
      ghost var hi := |procs|;
      var i := 0;
      count, threw, seen := 0, false, {};
      while i < |ids|
        invariant i <= |ids| && Valid() && old(ran) <= ran && next == lo + i && hi == lo + |ids| && !threw
        invariant Expiring(procs, lo, ids, i) && Reckoned(Now(), seen, count, Expired, ids[..i])
        invariant ExpiredSoFar(gaps, rows, payments, ids, i, count)
      {
        ghost var was := payments;
        var ok := ExpireOne(next, lo, hi, ids, gaps, i, seen, count);
        if ok.Err? { threw := true; return; }
        ExpiredOneMore(gaps, rows, was, payments, ids, i, count, ok.value);
        seen := Noting(seen, ok.value, ids[i]);
        if ok.value { count := count + 1; }
        i, next := i + 1, next + 1;
      }
      assert ids[..i] == ids;
    }

    /** One round of that loop; the rows after it keep waiting. */
    method ExpireOne(
      next: nat, ghost lo: nat, ghost hi: nat, ids: seq<nat>, gaps: seq<Pauses>, i: nat, ghost seen: set<nat>, ghost count: nat)
      returns (r: Result<bool, Failure>)
      requires Valid() && i < |ids| == |gaps| && next == lo + i && hi == lo + |ids| <= |procs|
      requires Expiring(procs, lo, ids, i) && gaps[i].Others(lo, hi)
      requires Reckoned(Now(), seen, count, Expired, ids[..i]) && forall j | 0 <= j < i :: ids[j] != ids[i]
      modifies this
      ensures Valid() && old(ran) <= ran && hi <= |procs|
      ensures r.Ok? ==> Expiring(procs, lo, ids, i + 1)
      ensures r.Ok? ==>
        Reckoned(Now(), Noting(seen, r.value, ids[i]), if r.value then count + 1 else count, Expired, ids[..i + 1])
      ensures r.Err? ==> !gaps[i].Fine()
      ensures gaps[i].Quiet() ==> r.Ok? && Expires(old(payments), payments, ids[i], r.value)
    {
      NarrowerCall(gaps[i], lo, next, hi);
      ghost var was, before, early := procs, Now(), ran;
      r := ExpirePayment(next, hi, ids[i], Expire, gaps[i]);
      if r.Ok? {
        StillExpiring(was, procs, lo, ids, i);
        StillReckoned(before, early, seen, count, Expired, ids[..i]);
        ReckonedOne(Now(), seen, count, Expired, ids, i, r.value);
      }
    }

    /** The query of `finalizePayment` and what it decides on the row: an outcome at once, or a row to check. */
    method LoadForFinality(p: nat, id: nat, fault: Fault) returns (row: Option<Payment>, r: Result<Outcome, Failure>)
      requires Valid() && At(p, FindForFinality(id))
      modifies this`procs, this`ran
      ensures Valid() && old(ran) <= ran && Waiting(old(procs), procs, p, |old(procs)|)
      ensures row.Some? ==> At(p, GetTransaction(row.value)) && row.value.id == id
      ensures row.None? ==> if r.Ok? then Promised(id, r.value) else r.error == OperationFailed && fault != NoFault
      ensures row.Some? ==> id in payments && payments[id] == row.value && IsPaid(row.value)
      ensures row.None? && r.Ok? ==>
        r.value == if id in payments && payments[id].status == Completed then DidComplete else DidSkip
      ensures row.None? && fault == NoFault ==>
        id !in payments || payments[id].status != Confirmed || payments[id].transactionHash.None?
    {
      if fault != NoFault {
        Continue(p, DatabaseError(None), Go(p, 0, Down, Before));
        return None, Err(OperationFailed);
      }
      var payment := FindUnique(id);
      if id in payments { StatusIsHeld(id); }
      if payment.None? || payment.value.status != Confirmed || payment.value.transactionHash.None? {
        r := Ok(if payment.Some? && payment.value.status == Completed then DidComplete else DidSkip);
        Continue(p, Skipped, Go(p, 0, Down, NoFault));
        return None, r;
      }
      Continue(p, GetTransaction(payment.value), Go(p, 0, Down, NoFault));
      row, r := payment, Ok(DidSkip);
    }

    method Complete(p: nat, ghost hi: nat, id: nat, now: int, gap: LongPauses) returns (r: Result<Outcome, Failure>)
      requires Valid() && At(p, Read(ToCompleted(id, now), Finality)) && p < hi <= |procs| && gap.Others(p, hi)
      modifies this
      ensures Valid() && old(ran) <= ran && Waiting(old(procs), procs, p, hi)
      ensures r.Ok? ==> r.value in {DidSkip, DidComplete} && Promised(id, r.value)
      ensures r.Err? ==> r.error == OperationFailed && !gap.Fine() && Stopped(p, ToCompleted(id, now))
      ensures gap.Quiet() && id in old(payments) && old(payments)[id].transactionHash.Some? ==>
        && r.Ok? && Completes(old(payments), payments, id, now, r.value == DidComplete)
        && Followed(old(payments), payments, old(events), events, old(links), links, id)
    {
      var req := ToCompleted(id, now);
      var completed := Transition(p, hi, req, Finality, gap.call);
      if gap.Quiet() { CompletingIs(old(payments), payments, old(events), events, id, now, completed); }
      if completed.Err? {
        return if completed.error == StateTransition then Ok(DidSkip) else Err(completed.error);
      }
      var synced := SyncAfter(p, hi, req, Finality, completed.value, gap.sync);
      r := if synced then Ok(DidComplete) else Err(OperationFailed);
    }

    /** Ask Horizon about the recorded transaction, then complete or fail the payment; errors of Horizon are thrown on. */
    method Settle(p: nat, ghost hi: nat, id: nat, row: Payment, answer: Horizon, now: int, gap: LongPauses)
      returns (r: Result<Outcome, Failure>)
      requires Valid() && At(p, GetTransaction(row)) && row.id == id && p < hi <= |procs| && gap.Others(p, hi) && !answer.Listing?
      modifies this
      ensures Valid() && old(ran) <= ran && Waiting(old(procs), procs, p, hi)
      ensures if r.Ok? then Promised(id, r.value) else r.error == OperationFailed && !gap.Fine()
      ensures r == Ok(DidComplete) ==> answer == Transaction(true)
      ensures r == Ok(DidFail) ==> answer == Missing || answer == Transaction(false)
      ensures r == Ok(HorizonUnavailable) ==> answer == Down
      ensures gap.Quiet() && id in old(payments) && old(payments)[id] == row && IsPaid(row) ==>
        && Settled(old(payments), payments, id, answer, now, r)
        && Followed(old(payments), payments, old(events), events, old(links), links, id)
    {
      if gap.second.fault != NoFault {
        Continue(p, DatabaseError(None), Go(p, now, answer, Before));
        return Err(OperationFailed);
      }
      if answer.Down? {
        Continue(p, Skipped, Go(p, now, answer, NoFault));
        return Ok(HorizonUnavailable);
      }
      var good := answer.Transaction? && answer.successful;
      Continue(p, Read(if good then ToCompleted(id, now) else ToFailed(id, "tx_unsuccessful"), Finality), Go(p, now, answer, NoFault));
      if good {
        r := Complete(p, hi, id, now, gap);
      } else {
        r := Fail(p, hi, id, "tx_unsuccessful", Finality, gap.call);
      }
    }

    /**
     * `finalizePayment` up to the customer totals: `completed` and `failed` are answered only for a payment
     * that really was completed or failed, by this worker or by another; only a failing operation is thrown on. It is
     * completed only if Horizon has the transaction as successful, and failed only if it has it otherwise or not at all.
     */
    method FinalizePayment(p: nat, ghost hi: nat, id: nat, answer: Horizon, now: int, gap: LongPauses)
      returns (r: Result<Outcome, Failure>)
      requires Valid() && At(p, FindForFinality(id)) && p < hi <= |procs| && gap.Others(p, hi) && !answer.Listing?
      modifies this
      ensures Valid() && old(ran) <= ran && Waiting(old(procs), procs, p, hi)
      ensures if r.Ok? then Promised(id, r.value) else r.error == OperationFailed && !gap.Fine()
      ensures r == Ok(DidComplete) ==>
        answer == Transaction(true) || (id in old(payments) && old(payments)[id].status == Completed)
      ensures r == Ok(DidFail) ==> answer == Missing || answer == Transaction(false)
      ensures r == Ok(HorizonUnavailable) ==> answer == Down
      ensures gap.Quiet() ==>
        && Finalized(old(payments), payments, id, answer, now, r)
        && Followed(old(payments), payments, old(events), events, old(links), links, id)
    {
      var row;
      row, r := LoadForFinality(p, id, gap.first.fault);
      if row.None? { return; }
      Interfere(p, hi, gap.second.others);
      r := Settle(p, hi, id, row.value, answer, now, gap);
    }

    // ---------- PaymentsService ----------

    method FindForCancellation(p: nat, id: nat, now: int, fault: Fault) returns (r: Result<bool, Failure>)
      requires Valid() && At(p, FindForCancel(id))
      modifies this`procs, this`ran
      ensures Valid() && old(ran) <= ran && Waiting(old(procs), procs, p, |old(procs)|)
      ensures r == if fault != NoFault then Err(OperationFailed) else Ok(id in payments)
      ensures r == Ok(true) ==> At(p, Read(ToCanceled(id, now), Job.Cancel))
    {
      if fault != NoFault {
        Continue(p, DatabaseError(None), Go(p, now, Down, Before));
        return Err(OperationFailed);
      }
      var payment := FindUnique(id);
      r := Ok(payment.Some?);
      Continue(p, if payment.Some? then Read(ToCanceled(id, now), Job.Cancel) else Skipped, Go(p, now, Down, NoFault));
    }

    /** `cancel`: on success the payment has been canceled, though the row answered may be another worker's doing. */
    method Cancel(p: nat, ghost hi: nat, id: nat, now: int, gap: LongPauses) returns (r: Result<Payment, Failure>)
      requires Valid() && At(p, FindForCancel(id)) && p < hi <= |procs| && gap.Others(p, hi)
      modifies this
      ensures Valid() && old(ran) <= ran && Waiting(old(procs), procs, p, hi)
      ensures r.Ok? ==> r.value.id == id && HeldBy(Now(), (id, Canceled))
      ensures r.Err? ==> r.error in {NotFound, StateTransition} || (r.error == OperationFailed && !gap.Fine())
      ensures gap.Quiet() ==>
        && Cancels(old(payments), payments, id, now, r.Ok?)
        && Followed(old(payments), payments, old(events), events, old(links), links, id)
        && if r.Ok? then id in payments && r.value == payments[id] else r.error == if id in payments then StateTransition else NotFound
    {
      var found := FindForCancellation(p, id, now, gap.first.fault);
      if found.Err? { return Err(found.error); }
      if !found.value { return Err(NotFound); }
      r := Transition(p, hi, ToCanceled(id, now), Job.Cancel, gap.call);
      if gap.Quiet() { CancelingIs(old(payments), payments, old(events), events, id, now, r); }
      if r.Ok? { ReturnedMeansHeld(p, ToCanceled(id, now), Job.Cancel, r.value); }
    }

    lemma LinksOfRows(linkId: nat)
      requires Valid()
      ensures linkId !in links ==> NoRowOf(payments, linkId)
    {
      ValidMeansInv();
      assert forall id | id in payments :: RowOk(Now(), id);
    }

    method CreateCheckoutLink(p: nat, draft: Draft, fault: Fault) returns (r: Result<(), Failure>)
      requires Valid() && At(p, CreateLink(draft))
      modifies this`links, this`procs, this`ran
      ensures Valid() && old(ran) <= ran && Waiting(old(procs), procs, p, |old(procs)|)
      ensures if r.Ok? then At(p, InsertPayment(draft)) else r.error == if fault == NoFault then Duplicate else OperationFailed
      ensures fault == NoFault ==> (r.Ok? <==> draft.linkId !in old(links))
      ensures links == if r.Ok? || (fault == After && draft.linkId !in old(links)) then old(links)[draft.linkId := None] else old(links)
    {
      var taken := draft.linkId in links;
      if !taken && fault != Before {
        links := links[draft.linkId := None];
      }
      Continue(p, if fault != NoFault then DatabaseError(None) else if taken then Conflicted else InsertPayment(draft),
               Go(p, 0, Down, fault));
      r := if fault != NoFault then Err(OperationFailed) else if taken then Err(Duplicate) else Ok(());
    }

    /** `repo.create`, under the unique indexes on the id and on the checkout link. */
    method CreatePayment(p: nat, draft: Draft, fault: Fault) returns (r: Result<(), Failure>)
      requires Valid() && At(p, InsertPayment(draft))
      modifies this`payments, this`trails, this`procs, this`ran
      ensures Valid() && old(ran) <= ran && Waiting(old(procs), procs, p, |old(procs)|)
      ensures if r.Ok? then At(p, EmitCreated(NewPayment(draft))) else r.error == if fault == NoFault then Duplicate else OperationFailed
      ensures r.Ok? ==> draft.id !in old(payments) && payments == old(payments)[draft.id := CreatedRow(draft)]
      ensures fault == NoFault && draft.id !in old(payments) && NoRowOf(old(payments), draft.linkId) ==> r.Ok?
    {
      var taken := draft.id in payments || LinkTaken(Now(), draft.linkId);
      if !taken && fault != Before {
        payments, trails := payments[draft.id := NewPayment(draft)], trails[draft.id := [Created]];
      }
      var unlogged := if !taken && fault == After then Some((draft.id, Created)) else None;
      Continue(p, if fault != NoFault then DatabaseError(unlogged) else if taken then Conflicted else EmitCreated(NewPayment(draft)),
               Go(p, 0, Down, fault));
      r := if fault != NoFault then Err(OperationFailed) else if taken then Err(Duplicate) else Ok(());
    }

    lemma CreationIsNew(p: nat)
      requires Valid() && p < |procs| && procs[p].EmitCreated?
      ensures !Logged(Now(), procs[p].row.id, Created)
    {
      ValidMeansInv();
      assert Owes(procs[p]) == Some((procs[p].row.id, Created));
    }

    method EmitCreatedEvent(p: nat, payment: Payment, fault: Fault) returns (ok: bool)
      requires Valid() && At(p, EmitCreated(payment))
      modifies this`events, this`procs, this`ran
      ensures Valid() && old(ran) <= ran && Waiting(old(procs), procs, p, |old(procs)|)
      ensures (ok <==> fault == NoFault) && (ok ==> At(p, Read(ToPending(payment.id), Job.Create)))
      ensures ok ==> events == old(events) + [Event(payment.id, Created, payment)]
    {
      CreationIsNew(p);
      var room := CreateEvent(payment, Created, fault);
      assert room;
      ok := fault == NoFault;
      Continue(p,
               if ok then Read(ToPending(payment.id), Job.Create)
               else DatabaseError(if fault == Before then Some((payment.id, Created)) else None),
               Go(p, 0, Down, fault));
    }

    /** The checkout link, the payment, and its created event. */
    method CreateRecords(p: nat, ghost hi: nat, draft: Draft, gap: LongPauses) returns (r: Result<(), Failure>)
      requires Valid() && At(p, CreateLink(draft)) && p < hi <= |procs| && gap.Others(p, hi)
      modifies this
      ensures Valid() && old(ran) <= ran && Waiting(old(procs), procs, p, hi)
      ensures r.Ok? ==> At(p, Read(ToPending(draft.id), Job.Create))
      ensures r.Err? ==> r.error == Duplicate || (r.error == OperationFailed && !gap.Fine())
      ensures gap.Quiet() && draft.linkId !in old(links) && draft.id !in old(payments) ==>
        r.Ok? && Recorded(old(payments), payments, old(events), events, old(links), links, draft)
    {
      LinksOfRows(draft.linkId);
      r := CreateCheckoutLink(p, draft, gap.first.fault);
      if r.Err? { return; }
      Interfere(p, hi, gap.second.others);
      r := CreateAndEmit(p, hi, draft, gap);
    }

    method EmitCreatedLater(p: nat, ghost hi: nat, payment: Payment, gap: Pause) returns (ok: bool)
      requires Valid() && At(p, EmitCreated(payment)) && p < hi <= |procs| && gap.Others(p, hi)
      modifies this
      ensures Valid() && old(ran) <= ran && Waiting(old(procs), procs, p, hi)
      ensures (ok <==> gap.Fine()) && (ok ==> At(p, Read(ToPending(payment.id), Job.Create)))
      ensures gap.Quiet() ==>
        events == old(events) + [Event(payment.id, Created, payment)] && payments == old(payments) && links == old(links)
    {
      Interfere(p, hi, gap.others);
      ok := EmitCreatedEvent(p, payment, gap.fault);
    }

    method CreateAndEmit(p: nat, ghost hi: nat, draft: Draft, gap: LongPauses) returns (r: Result<(), Failure>)
      requires Valid() && At(p, InsertPayment(draft)) && p < hi <= |procs| && gap.Others(p, hi)
      modifies this
      ensures Valid() && old(ran) <= ran && Waiting(old(procs), procs, p, hi)
      ensures r.Ok? ==> At(p, Read(ToPending(draft.id), Job.Create))
      ensures r.Err? ==> r.error == Duplicate || (r.error == OperationFailed && !gap.Fine())
      ensures gap.Quiet() && draft.id !in old(payments) && NoRowOf(old(payments), draft.linkId) ==>
        && r.Ok? && payments == old(payments)[draft.id := CreatedRow(draft)] && links == old(links)
        && events == old(events) + [Event(draft.id, Created, CreatedRow(draft))]
    {
      r := CreatePayment(p, draft, gap.second.fault);
      if r.Err? { return; }
      var ok := EmitCreatedLater(p, hi, NewPayment(draft), gap.third);
      r := if ok then Ok(()) else Err(OperationFailed);
    }

    /** `create` between the idempotency calls: on success the payment exists and has been pending. */
    method Create(p: nat, ghost hi: nat, draft: Draft, gap: LongPauses) returns (r: Result<Payment, Failure>)
      requires Valid() && At(p, CreateLink(draft)) && p < hi <= |procs| && gap.Others(p, hi)
      modifies this
      ensures Valid() && old(ran) <= ran && Waiting(old(procs), procs, p, hi)
      ensures r.Ok? ==> r.value.id == draft.id && HeldBy(Now(), (draft.id, Pending))
      ensures r.Err? ==> r.error in {Duplicate, StateTransition} || (r.error == OperationFailed && !gap.Fine())
      ensures gap.Quiet() && draft.linkId !in old(links) && draft.id !in old(payments) ==>
        && Opened(old(payments), payments, old(events), events, old(links), links, draft)
        && r == Ok(CreatedRow(draft).(status := Pending))
    {
      var made := CreateRecords(p, hi, draft, gap);
      if made.Err? { return Err(made.error); }
      ghost var rows, log, shown := payments, events, links;
      r := Transition(p, hi, ToPending(draft.id), Job.Create, gap.call);
      if gap.Quiet() && draft.linkId !in old(links) && draft.id !in old(payments) {
        RecordedThenPending(old(payments), rows, payments, old(events), log, events, old(links), shown, draft, r);
      }
      if r.Ok? { ReturnedMeansHeld(p, ToPending(draft.id), Job.Create, r.value); }
    }
  }
}
