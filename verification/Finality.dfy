/**
 * Finality jobs and the customer totals they keep: any number of finalizers, interleaved with each other and with the
 * workers that create, advance and confirm payments (finalizePayment and updateCustomerAggregates in
 * src/modules/reconciler/reconciler.service.ts).
 *
 * A finalizer reads the payment and asks Horizon, makes a transition, reads the customer, and updates the customer: the
 * counter is incremented in the store, the value is written from the row read before. The transition reads the row once
 * more and refuses it unless it may still move; then comes the compare-and-set, which returns normally to the loser if
 * the goal is already reached. What follows in the transition (the reload of a row that no longer changes, the event) and
 * the checkout link touch nothing that is modelled here; their failures are failures of the next operation.
 */
module Finality {
  import opened Wrappers
  import opened Amounts
  import opened Lifecycle
  import opened Aggregates

  datatype Lookup = Unavailable | NotFound | Found(successful: bool)

  datatype Pc =
    | Start(id: nat)
    | Confirming(id: nat)  // toCompleted, about to read the row itself
    | Swapping(id: nat)    // it read the row confirmed
    | Refuting(id: nat)    // toFailed, about to read the row itself
    | Failing(id: nat)     // it read a row that may fail
    | Loading(payment: Payment)
    | Updating(payment: Payment, read: Customer)
    | Over

  /** `counted` lists the payments added to totals, `born` the customer rows as first stored; the code keeps neither. */
  datatype World = World(
    payments: map<nat, Payment>, customers: map<nat, Customer>, procs: seq<Pc>, counted: seq<nat>, born: map<nat, Customer>)

  datatype Turn =
    | Enroll(id: nat, customer: Customer)
    | Insert(draft: Draft)
    | Advance(req: Request)
    | Finalize(id: nat)
    | Go(proc: nat, lookup: Lookup, now: int, fault: Fault)

  const INIT := World(map[], map[], [], [], map[])

  function Goto(w: World, q: nat, pc: Pc): World
    requires q < |w.procs|
  {
    w.(procs := w.procs[q := pc])
  }

  // ---------- the other workers ----------

  /** A new payment names an existing customer, or none, and its amount was validated. */
  predicate Insertable(w: World, d: Draft) {
    d.id !in w.payments && (d.customerId.Some? ==> d.customerId.value in w.customers) && Grammatical(d.terms.amount)
  }

  /** Every transition but the completing one. */
  predicate Advances(w: World, req: Request) {
    !req.ToCompleted? && req.id in w.payments && w.payments[req.id].status in AllowedFrom(req.Goal())
  }

  function Others(w: World, t: Turn): World {
    match t
    case Enroll(id, customer) =>
      if id in w.customers || !IsPlain(customer) then w
      else w.(customers := w.customers[id := customer], born := w.born[id := customer])
    case Insert(draft) => if Insertable(w, draft) then w.(payments := w.payments[draft.id := NewPayment(draft)]) else w
    case Advance(req) => if Advances(w, req) then w.(payments := w.payments[req.id := req.Apply(w.payments[req.id])]) else w
    case _ => w
  }

  // ---------- a finalizer ----------

  predicate Finalizable(w: World, id: nat) {
    id in w.payments && w.payments[id].status == Confirmed && w.payments[id].transactionHash.Some?
  }

  /** Where the finalizer goes after reading the row and asking Horizon. */
  function AfterStart(w: World, id: nat, lookup: Lookup): Pc {
    if !Finalizable(w, id) || lookup.Unavailable? then Over
    else if lookup == Found(true) then Confirming(id) else Refuting(id)
  }

  /** The transition's own read: it refuses a row that may not move to the goal. */
  function AfterRead(w: World, id: nat, goal: Status, next: Pc): Pc {
    if id in w.payments && w.payments[id].status in AllowedFrom(goal) then next else Over
  }

  /** The compare-and-set of `toCompleted`: the row is written, or was by another job in between, or has failed. */
  function Complete(w: World, q: nat, id: nat, now: int, fault: Fault): World
    requires q < |w.procs|
  {
    if id !in w.payments || fault == Before then Goto(w, q, Over)
    else
      var row := if w.payments[id].status == Confirmed then ToCompleted(id, now).Apply(w.payments[id]) else w.payments[id];
      if row.status == Completed then Goto(w.(payments := w.payments[id := row]), q, if fault == After then Over else Loading(row))
      else Goto(w, q, Over)
  }

  /** The compare-and-set of `toFailed`. */
  function Refute(w: World, q: nat, id: nat, fault: Fault): World
    requires q < |w.procs|
  {
    var req := ToFailed(id, "tx_unsuccessful");
    if fault != Before && Advances(w, req) then Goto(w.(payments := w.payments[id := req.Apply(w.payments[id])]), q, Over)
    else Goto(w, q, Over)
  }

  function AfterLoading(w: World, payment: Payment, fault: Fault): Pc {
    if fault != NoFault || payment.customerId.None? || payment.customerId.value !in w.customers then Over
    else Updating(payment, w.customers[payment.customerId.value])
  }

  function Update(w: World, q: nat, payment: Payment, read: Customer, fault: Fault): World
    requires q < |w.procs|
  {
    if fault == Before || payment.customerId.None? || payment.customerId.value !in w.customers then Goto(w, q, Over)
    else
      var c := payment.customerId.value;
      match Counted(w.customers[c], read, payment)
      case Err(_) => Goto(w, q, Over)
      case Ok(row) => Goto(w.(customers := w.customers[c := row], counted := w.counted + [payment.id]), q, Over)
  }

  function Move(w: World, q: nat, lookup: Lookup, now: int, fault: Fault): World
    requires q < |w.procs|
  {
    match w.procs[q]
    case Start(id) => Goto(w, q, if fault != NoFault then Over else AfterStart(w, id, lookup))
    case Confirming(id) => Goto(w, q, if fault != NoFault then Over else AfterRead(w, id, Completed, Swapping(id)))
    case Swapping(id) => Complete(w, q, id, now, fault)
    case Refuting(id) => Goto(w, q, if fault != NoFault then Over else AfterRead(w, id, Status.Failed, Failing(id)))
    case Failing(id) => Refute(w, q, id, fault)
    case Loading(payment) => Goto(w, q, AfterLoading(w, payment, fault))
    case Updating(payment, read) => Update(w, q, payment, read, fault)
    case Over => w
  }

  function Step(w: World, t: Turn): World {
    match t
    case Finalize(id) => w.(procs := w.procs + [Start(id)])
    case Go(q, lookup, now, fault) => if q < |w.procs| then Move(w, q, lookup, now, fault) else w
    case _ => Others(w, t)
  }

  function Run(w: World, schedule: seq<Turn>): World
    decreases |schedule|
  {
    if schedule == [] then w else Run(Step(w, schedule[0]), schedule[1..])
  }

  lemma {:induction false} RunAppend(w: World, s: seq<Turn>, t: seq<Turn>)
    ensures Run(w, s + t) == Run(Run(w, s), t)
    decreases |s|
  {
    if s == [] {
      assert s + t == t;
    } else {
      assert (s + t)[1..] == s[1..] + t;
      RunAppend(Step(w, s[0]), s[1..], t);
    }
  }

  lemma RunOneMore(w: World, s: seq<Turn>, t: Turn)
    ensures Run(w, s + [t]) == Step(Run(w, s), t)
  {
    RunAppend(w, s, [t]);
    assert Run(Run(w, s), [t]) == Run(Step(Run(w, s), t), []);
  }

  // ---------- what every interleaving keeps ----------

  predicate IsCompleted(w: World, id: nat) {
    id in w.payments && w.payments[id].status == Completed
  }

  predicate PaymentOk(w: World, id: nat)
    requires id in w.payments
  {
    && w.payments[id].id == id && Grammatical(w.payments[id].terms.amount)
    && (w.payments[id].customerId.Some? ==> w.payments[id].customerId.value in w.customers)
  }

  predicate PcOk(w: World, pc: Pc) {
    match pc
    case Swapping(id) => id in w.payments
    case Loading(p) => IsCompleted(w, p.id) && p.SameIdentity(w.payments[p.id])
    case Updating(p, read) =>
      IsCompleted(w, p.id) && p.SameIdentity(w.payments[p.id]) && p.customerId.Some? && p.customerId.value in w.customers && IsPlain(read)
    case _ => true
  }

  ghost predicate CustomerOk(w: World, c: nat)
    requires c in w.customers && c in w.born
  {
    && IsPlain(w.customers[c]) && IsPlain(w.born[c])
    && w.customers[c].paymentCount == w.born[c].paymentCount + CountFor(w.payments, w.counted, c)
  }

  ghost predicate Inv(w: World) {
    && (forall id | id in w.payments :: PaymentOk(w, id))
    && (forall q | 0 <= q < |w.procs| :: PcOk(w, w.procs[q]))
    && (forall id | id in w.counted :: IsCompleted(w, id))
    && w.customers.Keys == w.born.Keys && (forall c | c in w.customers :: CustomerOk(w, c))
  }

  /** Payments stay, keep their identity, and stay completed; customers stay. */
  ghost predicate Grows(w: World, w': World) {
    && (forall id | id in w.payments :: id in w'.payments && w'.payments[id].SameIdentity(w.payments[id]))
    && (forall id | IsCompleted(w, id) :: IsCompleted(w', id))
    && w.customers.Keys <= w'.customers.Keys
  }

  lemma PcStays(w: World, w': World, pc: Pc)
    requires PcOk(w, pc) && Grows(w, w')
    ensures PcOk(w', pc)
  {
  }

  /** What a turn may do to payments keeps the counts, if customers and `counted` are left alone. */
  lemma PaymentsMove(w: World, w': World)
    requires Inv(w) && Grows(w, w') && w'.customers == w.customers && w'.born == w.born && w'.counted == w.counted
    requires forall id | id in w'.payments :: PaymentOk(w', id)
    requires forall q | 0 <= q < |w'.procs| :: PcOk(w', w'.procs[q])
    ensures Inv(w')
  {
    forall c | c in w'.customers ensures CustomerOk(w', c) {
      assert CustomerOk(w, c);
      SumsFrame(w.payments, w'.payments, w.counted, c);
    }
  }

  /** The finalizer `q` goes to `pc`, and payments may have moved. */
  lemma ProcMove(w: World, w': World, q: nat, pc: Pc)
    requires Inv(w) && Grows(w, w') && w'.customers == w.customers && w'.born == w.born && w'.counted == w.counted
    requires q <= |w.procs| && w'.procs == (if q < |w.procs| then w.procs[q := pc] else w.procs + [pc]) && PcOk(w', pc)
    requires forall id | id in w'.payments :: PaymentOk(w', id)
    ensures Inv(w')
  {
    forall r | 0 <= r < |w'.procs| ensures PcOk(w', w'.procs[r]) {
      if r != q { PcStays(w, w', w.procs[r]); }
    }
    PaymentsMove(w, w');
  }

  lemma WriteRow(w: World, w': World, id: nat, row: Payment)
    requires Inv(w) && id in w.payments && row.SameIdentity(w.payments[id])
    requires w.payments[id].status == Completed ==> row.status == Completed
    requires w'.payments == w.payments[id := row] && w'.customers == w.customers
    ensures Grows(w, w') && forall x | x in w'.payments :: PaymentOk(w', x)
  {
    assert PaymentOk(w, id);
    forall x | x in w'.payments ensures PaymentOk(w', x) {
      assert PaymentOk(w, x);
    }
  }

  lemma SameRows(w: World, w': World)
    requires Inv(w) && w'.payments == w.payments && w'.customers == w.customers
    ensures Grows(w, w') && forall x | x in w'.payments :: PaymentOk(w', x)
  {
    forall x | x in w'.payments ensures PaymentOk(w', x) {
      assert PaymentOk(w, x);
    }
  }

  lemma OthersKeep(w: World, t: Turn)
    requires Inv(w) && !t.Go? && !t.Finalize?
    ensures Inv(Step(w, t)) && Grows(w, Step(w, t))
  {
    var w' := Step(w, t);
    match t
    case Enroll(id, customer) =>
      if w' != w { EnrollKeeps(w, id, customer); }
    case Insert(d) =>
      if w' != w { InsertKeeps(w, d); }
    case Advance(req) =>
      if w' != w {
        WriteRow(w, w', req.id, req.Apply(w.payments[req.id]));
        forall q | 0 <= q < |w'.procs| ensures PcOk(w', w'.procs[q]) { PcStays(w, w', w.procs[q]); }
        PaymentsMove(w, w');
      }
    case _ =>
  }

  lemma InsertKeeps(w: World, d: Draft)
    requires Inv(w) && Insertable(w, d)
    ensures Inv(Others(w, Insert(d))) && Grows(w, Others(w, Insert(d)))
  {
    var w' := Others(w, Insert(d));
    forall x | x in w'.payments ensures PaymentOk(w', x) {
      if x != d.id { assert PaymentOk(w, x); }
    }
    forall q | 0 <= q < |w'.procs| ensures PcOk(w', w'.procs[q]) { PcStays(w, w', w.procs[q]); }
    PaymentsMove(w, w');
  }

  /** Nothing counted belongs to a customer that is new. */
  lemma {:induction false} NothingFor(payments: map<nat, Payment>, ids: seq<nat>, c: nat)
    requires forall id | id in ids :: id in payments && payments[id].customerId != Some(c)
    ensures CountFor(payments, ids, c) == 0 && Total(payments, ids, c) == 0.0 && !AnyUsdc(payments, ids, c)
  {
    if ids != [] {
      var n := |ids| - 1;
      NothingFor(payments, ids[..n], c);
      assert ids[n] in ids;
      assert forall i | 0 <= i < |ids| :: ids[i] in ids;
    }
  }

  lemma NewCustomer(w: World, c: nat)
    requires Inv(w) && c !in w.customers
    ensures CountFor(w.payments, w.counted, c) == 0 && Total(w.payments, w.counted, c) == 0.0 &&
      !AnyUsdc(w.payments, w.counted, c)
  {
    forall id | id in w.counted ensures id in w.payments && w.payments[id].customerId != Some(c) {
      assert IsCompleted(w, id) && PaymentOk(w, id);
    }
    NothingFor(w.payments, w.counted, c);
  }

  lemma EnrollKeeps(w: World, id: nat, customer: Customer)
    requires Inv(w) && id !in w.customers && IsPlain(customer)
    ensures Inv(Others(w, Enroll(id, customer))) && Grows(w, Others(w, Enroll(id, customer)))
  {
    var w' := Others(w, Enroll(id, customer));
    NewCustomer(w, id);
    forall x | x in w'.payments ensures PaymentOk(w', x) { assert PaymentOk(w, x); }
    forall q | 0 <= q < |w'.procs| ensures PcOk(w', w'.procs[q]) { PcStays(w, w', w.procs[q]); }
    forall c | c in w'.customers ensures CustomerOk(w', c) {
      if c != id { assert CustomerOk(w, c); }
    }
  }

  lemma CompleteKeeps(w: World, q: nat, id: nat, now: int, fault: Fault)
    requires Inv(w) && q < |w.procs| && w.procs[q] == Swapping(id)
    ensures Inv(Complete(w, q, id, now, fault)) && Grows(w, Complete(w, q, id, now, fault))
  {
    var w' := Complete(w, q, id, now, fault);
    assert PcOk(w, w.procs[q]) && PaymentOk(w, id);
    var row := if w.payments[id].status == Confirmed then ToCompleted(id, now).Apply(w.payments[id]) else w.payments[id];
    if row.status == Completed && fault != Before {
      WriteRow(w, w', id, row);
    } else {
      SameRows(w, w');
    }
    ProcMove(w, w', q, w'.procs[q]);
  }

  lemma RefuteKeeps(w: World, q: nat, id: nat, fault: Fault)
    requires Inv(w) && q < |w.procs|
    ensures Inv(Refute(w, q, id, fault)) && Grows(w, Refute(w, q, id, fault))
  {
    var w', req := Refute(w, q, id, fault), ToFailed(id, "tx_unsuccessful");
    if fault != Before && Advances(w, req) {
      WriteRow(w, w', id, req.Apply(w.payments[id]));
    } else {
      SameRows(w, w');
    }
    ProcMove(w, w', q, Over);
  }

  lemma UpdateKeeps(w: World, q: nat, p: Payment, read: Customer, fault: Fault)
    requires Inv(w) && q < |w.procs| && w.procs[q] == Updating(p, read)
    ensures Inv(Update(w, q, p, read, fault)) && Grows(w, Update(w, q, p, read, fault))
  {
    var w' := Update(w, q, p, read, fault);
    if w'.counted == w.counted {
      assert PcOk(w, w.procs[q]);
      UpdateShape(w, q, p, read, fault);
      SameRows(w, w');
      ProcMove(w, w', q, Over);
    } else {
      UpdateCounts(w, q, p, read, fault);
    }
  }

  lemma UpdateCounts(w: World, q: nat, p: Payment, read: Customer, fault: Fault)
    requires Inv(w) && q < |w.procs| && w.procs[q] == Updating(p, read)
    requires Update(w, q, p, read, fault).counted != w.counted
    ensures Inv(Update(w, q, p, read, fault)) && Grows(w, Update(w, q, p, read, fault))
  {
    assert PcOk(w, w.procs[q]);
    var c := p.customerId.value;
    assert CustomerOk(w, c);
    CountedWorth(w.customers[c], read, p);
    var row := Counted(w.customers[c], read, p).value;
    UpdateShape(w, q, p, read, fault);
    CountMove(w, q, p.id, c, row);
  }

  lemma UpdateShape(w: World, q: nat, p: Payment, read: Customer, fault: Fault)
    requires q < |w.procs| && p.customerId.Some? && p.customerId.value in w.customers
    ensures var w', c := Update(w, q, p, read, fault), p.customerId.value;
      if fault == Before || Counted(w.customers[c], read, p).Err? then w' == Goto(w, q, Over)
      else w' == CountIn(w, q, p.id, c, Counted(w.customers[c], read, p).value)
  {
  }

  /** The customer's row is replaced and the payment listed. */
  function CountIn(w: World, q: nat, id: nat, c: nat, row: Customer): World
    requires q < |w.procs|
  {
    Goto(w.(customers := w.customers[c := row], counted := w.counted + [id]), q, Over)
  }

  lemma CountMove(w: World, q: nat, id: nat, c: nat, row: Customer)
    requires Inv(w) && q < |w.procs| && IsCompleted(w, id) && w.payments[id].customerId == Some(c) && c in w.customers
    requires IsPlain(row) && row.paymentCount == w.customers[c].paymentCount + 1
    ensures Inv(CountIn(w, q, id, c, row)) && Grows(w, CountIn(w, q, id, c, row))
  {
    var w' := CountIn(w, q, id, c, row);
    forall x | x in w'.payments ensures PaymentOk(w', x) { assert PaymentOk(w, x); }
    forall r | 0 <= r < |w'.procs| ensures PcOk(w', w'.procs[r]) {
      if r != q { PcStays(w, w', w.procs[r]); }
    }
    forall d | d in w'.customers ensures CustomerOk(w', d) {
      assert CustomerOk(w, d);
      TotalsAppend(w.payments, w.counted, id, d);
    }
  }

  lemma StepKeeps(w: World, t: Turn)
    requires Inv(w)
    ensures Inv(Step(w, t)) && Grows(w, Step(w, t))
  {
    match t
    case Finalize(id) =>
      SameRows(w, Step(w, t));
      ProcMove(w, Step(w, t), |w.procs|, Start(id));
    case Go(q, lookup, now, fault) =>
      if q < |w.procs| { MoveKeeps(w, q, lookup, now, fault); }
    case _ => OthersKeep(w, t);
  }

  lemma MoveKeeps(w: World, q: nat, lookup: Lookup, now: int, fault: Fault)
    requires Inv(w) && q < |w.procs|
    ensures Inv(Move(w, q, lookup, now, fault)) && Grows(w, Move(w, q, lookup, now, fault))
  {
    match w.procs[q]
    case Start(id) => StartKeeps(w, q, id, lookup, fault);
    case Confirming(id) => ReadKeeps(w, q, id, Completed, Swapping(id), fault);
    case Swapping(id) => CompleteKeeps(w, q, id, now, fault);
    case Refuting(id) => ReadKeeps(w, q, id, Status.Failed, Failing(id), fault);
    case Failing(id) => RefuteKeeps(w, q, id, fault);
    case Loading(p) => LoadKeeps(w, q, p, fault);
    case Updating(p, read) => UpdateKeeps(w, q, p, read, fault);
    case Over => SameRows(w, w);
  }

  lemma StartKeeps(w: World, q: nat, id: nat, lookup: Lookup, fault: Fault)
    requires Inv(w) && q < |w.procs|
    ensures var w' := Goto(w, q, if fault != NoFault then Over else AfterStart(w, id, lookup)); Inv(w') && Grows(w, w')
  {
    var w' := Goto(w, q, if fault != NoFault then Over else AfterStart(w, id, lookup));
    SameRows(w, w');
    ProcMove(w, w', q, w'.procs[q]);
  }

  lemma ReadKeeps(w: World, q: nat, id: nat, goal: Status, next: Pc, fault: Fault)
    requires Inv(w) && q < |w.procs| && (next == Swapping(id) || next == Failing(id))
    ensures var w' := Goto(w, q, if fault != NoFault then Over else AfterRead(w, id, goal, next)); Inv(w') && Grows(w, w')
  {
    var w' := Goto(w, q, if fault != NoFault then Over else AfterRead(w, id, goal, next));
    SameRows(w, w');
    ProcMove(w, w', q, w'.procs[q]);
  }

  lemma LoadKeeps(w: World, q: nat, p: Payment, fault: Fault)
    requires Inv(w) && q < |w.procs| && w.procs[q] == Loading(p)
    ensures Inv(Goto(w, q, AfterLoading(w, p, fault))) && Grows(w, Goto(w, q, AfterLoading(w, p, fault)))
  {
    var w' := Goto(w, q, AfterLoading(w, p, fault));
    assert PcOk(w, w.procs[q]);
    if w'.procs[q].Updating? { assert CustomerOk(w, p.customerId.value); }
    SameRows(w, w');
    ProcMove(w, w', q, w'.procs[q]);
  }

  lemma {:induction false} RunKeeps(w: World, schedule: seq<Turn>)
    requires Inv(w)
    ensures Inv(Run(w, schedule))
    decreases |schedule|
  {
    if schedule != [] {
      StepKeeps(w, schedule[0]);
      RunKeeps(Step(w, schedule[0]), schedule[1..]);
    }
  }
}
