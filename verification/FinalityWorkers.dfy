/**
 * `finalizePayment` and `updateCustomerAggregates` written as the code is
 * (src/modules/reconciler/reconciler.service.ts). Other workers may run before any operation and any operation may
 * fail, before or after it took effect; `Valid` ties the store to the machine.
 */
module FinalityWorkers {
  import opened Wrappers
  import opened Amounts
  import opened Lifecycle
  import opened Aggregates
  import opened Finality
  import opened FinalityTheorems

  datatype Outcome = DoneCompleted | DoneFailed | DoneSkipped | HorizonUnavailable

  predicate Elsewhere(turns: seq<Turn>, p: nat) {
    forall t | t in turns && t.Go? :: t.proc != p
  }

  /** What the other workers do before an operation, and how the operation ends. */
  datatype Pause = Pause(others: seq<Turn>, fault: Fault)

  /** The operations of a finality job: read, the transition's read and swap, load the customer, update the customer. */
  datatype Pauses = Pauses(read: Fault, check: Pause, swap: Pause, load: Pause, update: Pause)
  {
    predicate Others(p: nat) {
      Elsewhere(check.others, p) && Elsewhere(swap.others, p) && Elsewhere(load.others, p) && Elsewhere(update.others, p)
    }

    predicate Fine() {
      read == check.fault == swap.fault == load.fault == update.fault == NoFault
    }
  }

  /** Payments stay, keep their identity, and stay completed. */
  ghost predicate RowsStay(payments: map<nat, Payment>, payments': map<nat, Payment>) {
    forall id | id in payments ::
      && id in payments' && payments'[id].SameIdentity(payments[id])
      && (payments[id].status == Completed ==> payments'[id].status == Completed)
  }

  lemma GrowsMeansStay(w: World, w': World)
    requires Grows(w, w')
    ensures RowsStay(w.payments, w'.payments)
  {
    forall id | id in w.payments && w.payments[id].status == Completed ensures w'.payments[id].status == Completed {
      assert IsCompleted(w, id) && IsCompleted(w', id);
    }
  }

  lemma {:induction false} OthersLeaveAlone(w: World, turns: seq<Turn>, p: nat)
    requires Inv(w) && p < |w.procs| && Elsewhere(turns, p)
    ensures var w' := Run(w, turns);
      RowsStay(w.payments, w'.payments) && p < |w'.procs| && w'.procs[p] == w.procs[p] && forall id | id in w.counted :: id in w'.counted
    decreases |turns|
  {
    if turns != [] {
      assert turns[0] in turns;
      StepKeeps(w, turns[0]);
      GrowsMeansStay(w, Step(w, turns[0]));
      Unmoved(w, turns[0], p);
      OthersLeaveAlone(Step(w, turns[0]), turns[1..], p);
    }
  }

  lemma Unmoved(w: World, t: Turn, p: nat)
    requires p < |w.procs| && !(t.Go? && t.proc == p)
    ensures p < |Step(w, t).procs| && Step(w, t).procs[p] == w.procs[p] && forall id | id in w.counted :: id in Step(w, t).counted
  {
    if t.Go? && t.proc < |w.procs| && w.procs[t.proc].Updating? {
      UpdateLists(w, t.proc, w.procs[t.proc].payment, w.procs[t.proc].read, t.fault);
    }
  }

  class FinalityStore {
    var payments: map<nat, Payment>
    var customers: map<nat, Customer>
    /** Where every finalizer is, what has been counted, and the first customer rows: nothing the code decides depends on these. */
    var procs: seq<Pc>
    var counted: seq<nat>
    var born: map<nat, Customer>
    ghost var ran: seq<Turn>

    function Now(): World
      reads this
    {
      World(payments, customers, procs, counted, born)
    }

    ghost predicate Valid()
      reads this
    {
      Now() == Run(INIT, ran)
    }

    predicate At(p: nat, pc: Pc)
      reads this
    {
      p < |procs| && procs[p] == pc
    }

    constructor ()
      ensures Valid() && ran == []
    {
      payments, customers, procs, counted, born, ran := map[], map[], [], [], map[], [];
    }

    lemma ValidMeansInv()
      requires Valid()
      ensures Inv(Now())
    {
      RunKeeps(INIT, ran);
    }

    method Interfere(p: nat, others: seq<Turn>)
      requires Valid() && p < |procs| && Elsewhere(others, p)
      modifies this
      ensures Valid() && ran == old(ran) + others && At(p, old(procs)[p])
      ensures RowsStay(old(payments), payments)
      ensures forall id | id in old(counted) :: id in counted
      ensures others == [] ==> Now() == old(Now())
    {
      ValidMeansInv();
      RunAppend(INIT, ran, others);
      OthersLeaveAlone(Now(), others, p);
      var w := Run(Now(), others);
      payments, customers, procs, counted, born := w.payments, w.customers, w.procs, w.counted, w.born;
      ran := ran + others;
    }

    method Continue(p: nat, pc: Pc, ghost turn: Turn)
      requires p < |procs| && Goto(Now(), p, pc) == Step(Run(INIT, ran), turn)
      modifies this`procs, this`ran
      ensures Valid() && ran == old(ran) + [turn] && procs == old(procs)[p := pc]
    {
      RunOneMore(INIT, ran, turn);
      procs := procs[p := pc];
      ran := ran + [turn];
    }

    /** The guards and Horizon's answer: how the job ends at once, or none if it goes on to a transition. */
    method ReadAndAsk(p: nat, id: nat, lookup: Lookup, fault: Fault) returns (end: Option<Result<Outcome, Fault>>)
      requires Valid() && At(p, Start(id))
      modifies this`procs, this`ran
      ensures Valid() && old(ran) <= ran
      ensures At(p, if end.Some? then Over else if lookup == Found(true) then Confirming(id) else Refuting(id))
      ensures end.None? ==> id in payments && payments[id].status == Confirmed && !lookup.Unavailable?
      ensures end.Some? && end.value.Err? <==> fault != NoFault
      ensures end == Some(Ok(DoneCompleted)) ==> IsCompleted(Now(), id)
      ensures end == Some(Ok(HorizonUnavailable)) ==> lookup.Unavailable?
      ensures end != Some(Ok(DoneFailed))
      ensures fault == NoFault && !IsCompleted(Now(), id) ==> (end == Some(Ok(DoneSkipped)) <==> !Finalizable(Now(), id))
      ensures fault == NoFault && IsCompleted(Now(), id) ==> end == Some(Ok(DoneCompleted))
    {
      end := None;
      if fault != NoFault { end := Some(Err(fault)); }
      else if id !in payments { end := Some(Ok(DoneSkipped)); }
      else if payments[id].status == Completed { end := Some(Ok(DoneCompleted)); }
      else if payments[id].status != Confirmed { end := Some(Ok(DoneSkipped)); }
      else if payments[id].transactionHash.None? { end := Some(Ok(DoneSkipped)); }
      else if lookup.Unavailable? { end := Some(Ok(HorizonUnavailable)); }
      var pc := if end.Some? then Over else if lookup == Found(true) then Confirming(id) else Refuting(id);
      Continue(p, pc, Go(p, lookup, 0, fault));
    }

    /** The transition's own read; false is the StateTransitionException. */
    method MayMove(p: nat, id: nat, goal: Status, next: Pc, fault: Fault) returns (r: Result<bool, Fault>)
      requires Valid() && id in payments
      requires (At(p, Confirming(id)) && goal == Completed && next == Swapping(id))
            || (At(p, Refuting(id)) && goal == Status.Failed && next == Failing(id))
      modifies this`procs, this`ran
      ensures Valid() && old(ran) <= ran && (r.Err? <==> fault != NoFault) && At(p, if r == Ok(true) then next else Over)
      ensures r.Ok? ==> (r.value <==> payments[id].status in AllowedFrom(goal))
    {
      var moves := payments[id].status in AllowedFrom(goal);
      r := if fault == NoFault then Ok(moves) else Err(fault);
      Continue(p, if r == Ok(true) then next else Over, Go(p, Unavailable, 0, fault));
    }

    /** The compare-and-set of `toCompleted`, with the reload of the loser. */
    method SwapCompleted(p: nat, id: nat, now: int, fault: Fault) returns (r: Result<Option<Payment>, Fault>)
      requires Valid() && At(p, Swapping(id)) && id in payments
      modifies this`payments, this`procs, this`ran
      ensures Valid() && old(ran) <= ran && (r.Err? ==> fault != NoFault)
      ensures At(p, if r.Ok? && r.value.Some? then Loading(r.value.value) else Over)
      ensures r.Ok? && r.value.Some? ==> IsCompleted(Now(), id) && r.value.value == payments[id] && r.value.value.id == id
      ensures r == Ok(None) ==> payments == old(payments) && payments[id].status !in {Confirmed, Completed}
      ensures payments == if old(payments)[id].status == Confirmed && fault != Before
                          then old(payments)[id := old(payments)[id].(status := Completed, completedAt := Some(now))] else old(payments)
      ensures RowsStay(old(payments), payments)
    {
      ValidMeansInv();
      assert PaymentOk(Now(), id);
      if fault == Before {
        Continue(p, Over, Go(p, Unavailable, now, fault));
        return Err(fault);
      }
      if payments[id].status == Confirmed {
        payments := payments[id := ToCompleted(id, now).Apply(payments[id])];
      } else if payments[id].status != Completed {
        Continue(p, Over, Go(p, Unavailable, now, fault));
        return Ok(None);
      } else {
        assert payments[id := payments[id]] == payments;
      }
      r := if fault == After then Err(fault) else Ok(Some(payments[id]));
      Continue(p, if fault == After then Over else Loading(payments[id]), Go(p, Unavailable, now, fault));
    }

    /**
     * `toCompleted`; none is the StateTransitionException. A row that is not confirmed when the transition reads it is
     * refused, a completed one included; after that the completed row is returned, whoever completed it, unless the row
     * has failed meanwhile.
     */
    method MarkCompleted(p: nat, id: nat, now: int, check: Fault, swap: Pause) returns (r: Result<Option<Payment>, Fault>)
      requires Valid() && At(p, Confirming(id)) && id in payments && Elsewhere(swap.others, p)
      modifies this
      ensures Valid() && old(ran) <= ran && id in payments && (r.Err? ==> check != NoFault || swap.fault != NoFault)
      ensures At(p, if r.Ok? && r.value.Some? then Loading(r.value.value) else Over)
      ensures check == NoFault && old(payments)[id].status != Confirmed ==> r == Ok(None) && payments == old(payments)
      ensures r.Ok? && r.value.Some? ==>
        old(payments)[id].status == Confirmed && IsCompleted(Now(), id) && r.value.value == payments[id] && r.value.value.id == id
      ensures r == Ok(None) ==> payments[id].status != Confirmed
      ensures r == Ok(None) && old(payments)[id].status == Confirmed ==> payments[id].status != Completed
      ensures RowsStay(old(payments), payments)
    {
      var moves := MayMove(p, id, Completed, Swapping(id), check);
      if moves.Err? { return Err(moves.error); }
      if !moves.value { return Ok(None); }
      Interfere(p, swap.others);
      r := SwapCompleted(p, id, now, swap.fault);
    }

    /** The compare-and-set of `toFailed`, with the reload of the loser. */
    method SwapFailed(p: nat, id: nat, fault: Fault) returns (r: Result<bool, Fault>)
      requires Valid() && At(p, Failing(id)) && id in payments
      modifies this`payments, this`procs, this`ran
      ensures Valid() && old(ran) <= ran && At(p, Over) && (r.Err? <==> fault != NoFault) && id in payments
      ensures r == Ok(true) ==> payments[id].status == Status.Failed
      ensures r == Ok(false) ==> payments == old(payments) && payments[id].status !in {Pending, Confirmed, Status.Failed}
      ensures payments == if old(payments)[id].status in {Pending, Confirmed} && fault != Before
                          then old(payments)[id := old(payments)[id].(status := Status.Failed, failureCode := Some("tx_unsuccessful"))]
                          else old(payments)
    {
      var req := ToFailed(id, "tx_unsuccessful");
      if fault != Before && payments[id].status in AllowedFrom(Status.Failed) {
        payments := payments[id := req.Apply(payments[id])];
      }
      r := if fault == NoFault then Ok(payments[id].status == Status.Failed) else Err(fault);
      Continue(p, Over, Go(p, Unavailable, 0, fault));
    }

    /** `toFailed`; false is the StateTransitionException. */
    method MarkFailed(p: nat, id: nat, check: Fault, swap: Pause) returns (r: Result<bool, Fault>)
      requires Valid() && At(p, Refuting(id)) && id in payments && Elsewhere(swap.others, p)
      modifies this
      ensures Valid() && old(ran) <= ran && At(p, Over) && id in payments &&
        (r.Err? ==> check != NoFault || swap.fault != NoFault)
      ensures check == NoFault && old(payments)[id].status !in {Pending, Confirmed} ==>
        r == Ok(false) && payments == old(payments)
      ensures r == Ok(true) ==> payments[id].status == Status.Failed
      ensures r == Ok(false) ==> payments[id].status !in {Pending, Confirmed}
    {
      var moves := MayMove(p, id, Status.Failed, Failing(id), check);
      if moves.Err? { return Err(moves.error); }
      if !moves.value { return Ok(false); }
      Interfere(p, swap.others);
      r := SwapFailed(p, id, swap.fault);
    }

    /** Load the customer of a payment that has one. */
    method LoadCustomer(p: nat, payment: Payment, fault: Fault) returns (customer: Option<Customer>)
      requires Valid() && At(p, Loading(payment))
      modifies this`procs, this`ran
      ensures Valid() && old(ran) <= ran && At(p, if customer.Some? then Updating(payment, customer.value) else Over)
      ensures customer.Some? <==> fault == NoFault && payment.customerId.Some?
      ensures customer.Some? ==> payment.customerId.value in customers && customers[payment.customerId.value] == customer.value
    {
      ValidMeansInv();
      assert PcOk(Now(), procs[p]) && PaymentOk(Now(), payment.id);
      var pc := AfterLoading(Now(), payment, fault);
      customer := if pc.Updating? then Some(pc.read) else None;
      Continue(p, pc, Go(p, Unavailable, 0, fault));
    }

    /**
     * The customer update: the counter rises by one in the row as it is, and the value becomes the one read plus the
     * amount. Other customers are untouched.
     */
    method UpdateCustomer(p: nat, payment: Payment, read: Customer, fault: Fault) returns (ok: bool)
      requires Valid() && At(p, Updating(payment, read))
      modifies this`customers, this`counted, this`procs, this`ran
      ensures Valid() && old(ran) <= ran && At(p, Over) && ok == (fault == NoFault) && customers.Keys == old(customers).Keys
      ensures payment.customerId.Some? && payment.customerId.value in customers
      ensures var c := payment.customerId.value;
        if fault == Before then customers == old(customers) && counted == old(counted)
        else
          && counted == old(counted) + [payment.id]
          && customers[c].paymentCount == old(customers)[c].paymentCount + 1 && customers[c].lastPaymentAt == payment.completedAt
          && (payment.terms.currency == "USDC" ==>
                Grammatical(payment.terms.amount) && Worth(customers[c]) == Worth(read) + Value(payment.terms.amount))
          && (payment.terms.currency != "USDC" ==> customers[c].lifetimeValue == old(customers)[c].lifetimeValue)
          && forall d | d in customers && d != c :: customers[d] == old(customers)[d]
    {
      UpdaterHasCustomer(p, payment, read, fault);
      ok := fault == NoFault;
      if fault != Before { CountPayment(payment, payment.customerId.value, read); }
      Continue(p, Over, Go(p, Unavailable, 0, fault));
    }

    lemma UpdaterHasCustomer(p: nat, payment: Payment, read: Customer, fault: Fault)
      requires Valid() && At(p, Updating(payment, read))
      ensures payment.customerId.Some? && payment.customerId.value in customers && IsPlain(customers[payment.customerId.value])
      ensures Counted(customers[payment.customerId.value], read, payment).Ok? && IsPlain(read)
      ensures Update(Now(), p, payment, read, fault) ==
        if fault == Before then Goto(Now(), p, Over)
        else CountIn(Now(), p, payment.id, payment.customerId.value, Counted(customers[payment.customerId.value], read, payment).value)
    {
      ValidMeansInv();
      assert PcOk(Now(), procs[p]) && PaymentOk(Now(), payment.id);
      var c := payment.customerId.value;
      assert CustomerOk(Now(), c);
      CanBeCounted(customers[c], read, payment);
      UpdateShape(Now(), p, payment, read, fault);
    }

    method CountPayment(payment: Payment, c: nat, read: Customer)
      requires c in customers && IsPlain(customers[c]) && IsPlain(read) && Counted(customers[c], read, payment).Ok?
      modifies this`customers, this`counted
      ensures customers == old(customers)[c := Counted(old(customers)[c], read, payment).value] &&
        counted == old(counted) + [payment.id]
      ensures customers[c].paymentCount == old(customers)[c].paymentCount + 1 && customers[c].lastPaymentAt == payment.completedAt
      ensures payment.terms.currency == "USDC" ==>
        Grammatical(payment.terms.amount) && Worth(customers[c]) == Worth(read) + Value(payment.terms.amount)
      ensures payment.terms.currency != "USDC" ==> customers[c].lifetimeValue == old(customers)[c].lifetimeValue
    {
      CountedWorth(customers[c], read, payment);
      var lifetimeValue := customers[c].lifetimeValue;
      if payment.terms.currency == "USDC" {
        var sum := AddDecimalStrings(OrZero(read.lifetimeValue), payment.terms.amount);
        lifetimeValue := sum.value;
      }
      customers := customers[c := Customer(customers[c].paymentCount + 1, lifetimeValue, payment.completedAt)];
      counted := counted + [payment.id];
    }

    /**
     * `updateCustomerAggregates`: if it does not throw, the payment of a customer is counted. If nobody else ran in
     * between, the customer has one payment more and is worth the amount more, and no other customer changed.
     */
    method UpdateCustomerAggregates(p: nat, payment: Payment, load: Fault, update: Pause) returns (ok: bool)
      requires Valid() && At(p, Loading(payment)) && Elsewhere(update.others, p)
      modifies this
      ensures Valid() && old(ran) <= ran && At(p, Over)
      ensures RowsStay(old(payments), payments)
      ensures load == NoFault && update.fault == NoFault ==> ok
      ensures payment.customerId.None? ==> customers == old(customers) && payments == old(payments)
      ensures payment.customerId.Some? && ok ==> payment.id in counted
      ensures payment.customerId.Some? && ok && update.others == [] ==>
        var c := payment.customerId.value;
        && c in old(customers) && c in customers && customers[c].paymentCount == old(customers)[c].paymentCount + 1
        && customers[c].lastPaymentAt == payment.completedAt
        && (payment.terms.currency == "USDC" ==>
              Grammatical(payment.terms.amount) && Worth(customers[c]) == Worth(old(customers)[c]) + Value(payment.terms.amount))
        && (payment.terms.currency != "USDC" ==> customers[c].lifetimeValue == old(customers)[c].lifetimeValue)
        && forall d | d in customers && d != c :: d in old(customers) && customers[d] == old(customers)[d]
    {
      var customer := LoadCustomer(p, payment, load);
      if customer.None? { return load == NoFault; }
      Interfere(p, update.others);
      ok := UpdateCustomer(p, payment, customer.value, update.fault);
    }

    /**
     * `finalizePayment`. Completed means the row is completed and, unless it was so at the start, counted for its
     * customer; failed means the row is failed; a job skips exactly the payments that are not confirmed at its read, or
     * that others have moved on by its transition. It throws only if an operation failed.
     */
    method FinalizePayment(p: nat, id: nat, lookup: Lookup, now: int, gap: Pauses) returns (r: Result<Outcome, Fault>)
      requires Valid() && At(p, Start(id)) && gap.Others(p)
      modifies this
      ensures Valid() && old(ran) <= ran && At(p, Over)
      ensures r == Ok(DoneCompleted) ==> IsCompleted(Now(), id)
      ensures r == Ok(DoneCompleted) && !old(IsCompleted(Now(), id)) && payments[id].customerId.Some? ==> id in counted
      ensures r == Ok(DoneFailed) ==> id in payments && payments[id].status == Status.Failed
      ensures r == Ok(HorizonUnavailable) ==> lookup.Unavailable?
      ensures r == Ok(DoneCompleted) ==> lookup == Found(true) || old(IsCompleted(Now(), id))
      ensures r == Ok(DoneFailed) ==> lookup == NotFound || lookup == Found(false)
      ensures r == Ok(DoneSkipped) && old(Finalizable(Now(), id)) ==> id in payments && payments[id].status != Confirmed
      ensures gap.read == NoFault && !old(Finalizable(Now(), id)) ==>
        && r == Ok(if old(IsCompleted(Now(), id)) then DoneCompleted else DoneSkipped)
        && payments == old(payments) && customers == old(customers)
      ensures r.Err? ==> !gap.Fine()
    {
      var end := ReadAndAsk(p, id, lookup, gap.read);
      if end.Some? { return end.value; }
      Interfere(p, gap.check.others);
      if lookup != Found(true) {
        var failed := MarkFailed(p, id, gap.check.fault, gap.swap);
        r := if failed.Err? then Err(failed.error) else Ok(if failed.value then DoneFailed else DoneSkipped);
      } else {
        r := CompleteAndCount(p, id, now, gap);
      }
    }

    method CompleteAndCount(p: nat, id: nat, now: int, gap: Pauses) returns (r: Result<Outcome, Fault>)
      requires Valid() && At(p, Confirming(id)) && id in payments && gap.Others(p)
      modifies this
      ensures Valid() && old(ran) <= ran && At(p, Over) && (r.Err? ==> !gap.Fine())
      ensures r.Ok? ==> r.value in {DoneCompleted, DoneSkipped} && id in payments
      ensures r == Ok(DoneCompleted) ==> IsCompleted(Now(), id) && (payments[id].customerId.Some? ==> id in counted)
      ensures r == Ok(DoneSkipped) ==> payments[id].status != Confirmed
    {
      var completed := MarkCompleted(p, id, now, gap.check.fault, gap.swap);
      if completed.Err? { return Err(completed.error); }
      if completed.value.None? { return Ok(DoneSkipped); }
      Interfere(p, gap.load.others);
      var ok := UpdateCustomerAggregates(p, completed.value.value, gap.load.fault, gap.update);
      r := if ok then Ok(DoneCompleted) else Err(if gap.load.fault != NoFault then gap.load.fault else gap.update.fault);
    }
  }
}
