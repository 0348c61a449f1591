/**
 * The payment workers as interleaved processes over the shared document store.
 *
 * A process is a program counter with the rows it has read so far, which may be stale.
 * One turn runs one atomic store operation of one process; a schedule is any list of
 * turns, so it ranges over every interleaving, and a process the schedule stops naming
 * has crashed. The clock, Horizon's answers, and which operations fail, before or after
 * taking effect, are chosen by the schedule too.
 */
module PaymentMachine {
  import opened Wrappers
  import opened Verifier
  import opened Lifecycle

  datatype Event = Event(paymentId: nat, kind: Status, snapshot: Payment)

  /** Who called the transition, which decides what follows it. */
  datatype Job = Create | Cancel | Expire | Reconcile | Finality

  datatype Pc =
    // PaymentsService.create, from the checkout link on
    | CreateLink(draft: Draft)
    | InsertPayment(draft: Draft)
    | EmitCreated(row: Payment)
    // PaymentsService.cancel
    | FindForCancel(id: nat)
    // expireOverduePayments, pollOpenPayments: a row of the scan, then the loop body for it
    | ScanOverdue(id: nat)
    | ScanPending(id: nat)
    | PollRow(row: Payment)
    // reconcilePayment
    | ListHorizon(row: Payment)
    | LoadHashes(row: Payment, records: seq<HorizonRecord>)
    // finalizePayment
    | FindForFinality(id: nat)
    | GetTransaction(row: Payment)
    // transition
    | Read(req: Request, job: Job)
    | CompareAndSet(req: Request, job: Job, current: Payment)
    | LostReload(req: Request, job: Job, current: Payment)
    | Reload(req: Request, job: Job, current: Payment)
    | EmitEvent(req: Request, job: Job, updated: Payment)
    // after it
    | SyncLink(req: Request, job: Job, row: Payment)
    | Returned(req: Request, job: Job, row: Payment)
    | Refused(req: Request, job: Job)
    | Conflicted                                       // a unique index refused a write
    | DatabaseError(unlogged: Option<(nat, Status)>)   // an operation failed, with this event never appended
    | Skipped

  /** `trails` records, per payment, the statuses its row has held, in order. */
  datatype World = World(
    payments: map<nat, Payment>, trails: map<nat, seq<Status>>, links: map<nat, Option<string>>,
    events: seq<Event>, procs: seq<Pc>)

  /** The transactions on chain (all Horizon can ever report) and the configured issuers. */
  datatype Chain = Chain(ledger: set<HorizonRecord>, issuers: Issuers)

  datatype Horizon = Down | Listing(records: seq<HorizonRecord>) | Transaction(successful: bool) | Missing

  datatype Turn = Start(pc: Pc) | Go(proc: nat, now: int, horizon: Horizon, fault: Fault)

  const INIT := World(map[], map[], map[], [], [])

  predicate IsEntry(pc: Pc) {
    pc.CreateLink? || pc.FindForCancel? || pc.ScanOverdue? || pc.ScanPending? || pc.FindForFinality?
  }

  function Goto(w: World, p: nat, pc: Pc): World
    requires p < |w.procs|
  {
    w.(procs := w.procs[p := pc])
  }

  // ---------- store operations ----------

  predicate LinkTaken(w: World, linkId: nat) {
    exists id | id in w.payments :: w.payments[id].linkId == linkId
  }

  /** The partial unique index on `transactionHash`. */
  predicate HashTaken(w: World, id: nat, hash: string) {
    exists other | other in w.payments :: other != id && w.payments[other].transactionHash == Some(hash)
  }

  /** The unique index on (paymentId, type). */
  predicate Logged(w: World, id: nat, kind: Status) {
    exists i | 0 <= i < |w.events| :: w.events[i].paymentId == id && w.events[i].kind == kind
  }

  function Insert(w: World, d: Draft): World {
    w.(payments := w.payments[d.id := NewPayment(d)], trails := w.trails[d.id := [Created]])
  }

  predicate CasMatches(w: World, req: Request) {
    req.id in w.payments && req.id in w.trails && w.payments[req.id].status in AllowedFrom(req.Goal())
  }

  predicate CasConflicts(w: World, req: Request) {
    req.ToConfirmed? && HashTaken(w, req.id, req.tx.transactionHash)
  }

  /** The row the winning `updateMany` leaves. */
  function Write(w: World, req: Request): World
    requires CasMatches(w, req)
  {
    w.(payments := w.payments[req.id := req.Apply(w.payments[req.id])],
       trails := w.trails[req.id := w.trails[req.id] + [req.Goal()]])
  }

  /** `loadForeignHashes`: which of these hashes other payments hold now. */
  function ForeignHashes(w: World, records: seq<HorizonRecord>, exclude: nat): set<string> {
    set r | r in records && HashTaken(w, exclude, r.transactionHash) :: r.transactionHash
  }

  // ---------- the workers ----------

  /** What `reconcilePayment` does with the verdict. */
  function AfterVerdict(row: Payment, verdict: VerifyResult, now: int): Pc {
    match verdict
    case Match(r) => Read(ToConfirmed(row.id, TransactionData(r.transactionHash, r.from, r.assetIssuer), now), Reconcile)
    case Mismatch(code, _) =>
      (match code
       case LateArrival => Read(ToExpired(row.id), Reconcile)
       case WrongAsset => Read(ToFailed(row.id, "wrong_asset"), Reconcile)
       case WrongIssuer => Read(ToFailed(row.id, "wrong_asset"), Reconcile)
       case InsufficientAmount => Read(ToFailed(row.id, "insufficient_amount"), Reconcile)
       case WrongAmount => Read(ToFailed(row.id, "wrong_amount"), Reconcile)
       case _ => Skipped)
    case Raised(_) => Skipped
  }

  /** Where a transition that returned `row` continues. */
  function AfterTransition(req: Request, job: Job, row: Payment): Pc {
    if (job == Reconcile && req.ToConfirmed?) || (job == Finality && req.ToCompleted?)
    then SyncLink(req, job, row) else Returned(req, job, row)
  }

  predicate Overdue(p: Payment, now: int) {
    p.terms.expiresAt.Some? && p.terms.expiresAt.value < now
  }

  /** The reads that precede a transition, and the decisions made on them. */
  function Prepare(c: Chain, w: World, pc: Pc, now: int, horizon: Horizon): Pc {
    match pc
    case FindForCancel(id) => if id in w.payments then Read(ToCanceled(id, now), Cancel) else Skipped
    case ScanOverdue(id) =>
      if id in w.payments && w.payments[id].status in {Created, Pending} && Overdue(w.payments[id], now)
      then Read(ToExpired(id), Expire) else Skipped
    case ScanPending(id) =>
      if id in w.payments && w.payments[id].status == Pending then PollRow(w.payments[id]) else Skipped
    case PollRow(row) =>
      if Overdue(row, now) then Read(ToExpired(row.id), Reconcile)
      else if row.status != Pending || row.transactionHash.Some? then Skipped
      else ListHorizon(row)
    case ListHorizon(row) =>
      if horizon.Listing? && (forall r | r in horizon.records :: r in c.ledger) then LoadHashes(row, horizon.records) else Skipped
    case LoadHashes(row, records) =>
      AfterVerdict(row, FirstMatch(row.terms, records, ForeignHashes(w, records, row.id), c.issuers), now)
    case FindForFinality(id) =>
      if id in w.payments && w.payments[id].status == Confirmed && w.payments[id].transactionHash.Some?
      then GetTransaction(w.payments[id]) else Skipped
    case GetTransaction(row) =>
      (match horizon
       case Transaction(successful) =>
         if successful then Read(ToCompleted(row.id, now), Finality) else Read(ToFailed(row.id, "tx_unsuccessful"), Finality)
       case Missing => Read(ToFailed(row.id, "tx_unsuccessful"), Finality)
       case _ => Skipped)
    case _ => pc
  }

  /** `transition`, one store operation at a time. */
  function Transition(w: World, p: nat, pc: Pc): World
    requires p < |w.procs|
  {
    match pc
    case Read(req, job) =>
      Goto(w, p,
           if req.id !in w.payments || w.payments[req.id].status !in AllowedFrom(req.Goal())
           then Refused(req, job) else CompareAndSet(req, job, w.payments[req.id]))
    case CompareAndSet(req, job, current) =>
      if !CasMatches(w, req) then Goto(w, p, LostReload(req, job, current))
      else if CasConflicts(w, req) then Goto(w, p, Conflicted)
      else Goto(Write(w, req), p, Reload(req, job, current))
    case LostReload(req, job, current) =>
      Goto(w, p,
           if req.id in w.payments && w.payments[req.id].status == req.Goal()
           then AfterTransition(req, job, w.payments[req.id]) else Refused(req, job))
    case Reload(req, job, current) =>
      Goto(w, p, if req.id in w.payments then EmitEvent(req, job, w.payments[req.id]) else Refused(req, job))
    case EmitEvent(req, job, updated) =>
      if Logged(w, updated.id, req.Goal()) then Goto(w, p, Conflicted)
      else Goto(w.(events := w.events + [Event(updated.id, req.Goal(), updated)]), p, AfterTransition(req, job, updated))
    case _ => w
  }

  /** `create`, from the checkout link to the created event. */
  function Creation(w: World, p: nat): World
    requires p < |w.procs|
  {
    match w.procs[p]
    case CreateLink(d) =>
      if d.linkId in w.links then Goto(w, p, Conflicted)
      else Goto(w.(links := w.links[d.linkId := None]), p, InsertPayment(d))
    case InsertPayment(d) =>
      if d.id in w.payments || LinkTaken(w, d.linkId) then Goto(w, p, Conflicted)
      else Goto(Insert(w, d), p, EmitCreated(NewPayment(d)))
    case EmitCreated(row) =>
      if Logged(w, row.id, Created) then Goto(w, p, Conflicted)
      else Goto(w.(events := w.events + [Event(row.id, Created, row)]), p, Read(ToPending(row.id), Create))
    case _ => w
  }

  /** `syncCheckoutLink`. */
  function Sync(w: World, p: nat): World
    requires p < |w.procs|
  {
    match w.procs[p]
    case SyncLink(req, job, row) =>
      if row.transactionHash.None? then Goto(w, p, Returned(req, job, row))
      else if row.linkId !in w.links then Goto(w, p, DatabaseError(None))
      else Goto(w.(links := w.links[row.linkId := row.transactionHash]), p, Returned(req, job, row))
    case _ => w
  }

  predicate IsCreating(pc: Pc) {
    pc.CreateLink? || pc.InsertPayment? || pc.EmitCreated?
  }

  predicate IsTransiting(pc: Pc) {
    pc.Read? || pc.CompareAndSet? || pc.LostReload? || pc.Reload? || pc.EmitEvent?
  }

  predicate IsOver(pc: Pc) {
    pc.Returned? || pc.Refused? || pc.Conflicted? || pc.DatabaseError? || pc.Skipped?
  }

  /** One operation that succeeds. */
  function Move(c: Chain, w: World, p: nat, now: int, horizon: Horizon): (w': World)
    requires p < |w.procs|
    ensures |w'.procs| == |w.procs|
  {
    var pc := w.procs[p];
    if IsCreating(pc) then Creation(w, p)
    else if IsTransiting(pc) then Transition(w, p, pc)
    else if pc.SyncLink? then Sync(w, p)
    else if IsOver(pc) then w
    else Goto(w, p, Prepare(c, w, pc, now, horizon))
  }

  /** The event a process has yet to append: it has made the change and not logged it. */
  function Owes(pc: Pc): Option<(nat, Status)> {
    match pc
    case EmitCreated(row) => Some((row.id, Created))
    case Reload(req, _, _) => Some((req.id, req.Goal()))
    case EmitEvent(req, _, _) => Some((req.id, req.Goal()))
    case DatabaseError(unlogged) => unlogged
    case _ => None
  }

  /**
   * Whether the next operation can throw past its caller. `pollOpenPayments` decides on a row without one,
   * the Horizon listing has its errors caught, and a row without a hash is not synced at all.
   */
  predicate CanFail(pc: Pc) {
    !IsOver(pc) && !pc.PollRow? && !pc.ListHorizon? && !(pc.SyncLink? && pc.row.transactionHash.None?)
  }

  /** The process has thrown; an event it still owed is never logged. */
  function Thrown(w: World, p: nat): World
    requires p < |w.procs|
  {
    Goto(w, p, DatabaseError(Owes(w.procs[p])))
  }

  /** One operation, which may fail before or after taking effect. */
  function Attempted(c: Chain, w: World, p: nat, now: int, horizon: Horizon, fault: Fault): World
    requires p < |w.procs|
  {
    if fault == NoFault || !CanFail(w.procs[p]) then Move(c, w, p, now, horizon)
    else if fault == Before then Thrown(w, p)
    else Thrown(Move(c, w, p, now, horizon), p)
  }

  function Step(c: Chain, w: World, t: Turn): World {
    match t
    case Start(pc) => if IsEntry(pc) then w.(procs := w.procs + [pc]) else w
    case Go(p, now, horizon, fault) => if p < |w.procs| then Attempted(c, w, p, now, horizon, fault) else w
  }

  function Run(c: Chain, w: World, schedule: seq<Turn>): World
    decreases |schedule|
  {
    if schedule == [] then w else Run(c, Step(c, w, schedule[0]), schedule[1..])
  }
}
