/** The customer totals as sums over the completed payments, in runs whose finalizers do not get in each other's way. */
module FinalityTotals {
  import opened Wrappers
  import opened Text
  import opened Amounts
  import opened Verifier
  import opened Lifecycle
  import opened Aggregates
  import opened Finality
  import opened FinalityTheorems

  // ---------- the value ----------

  predicate Updates(pc: Pc, c: nat) {
    pc.Updating? && pc.payment.customerId == Some(c)
  }

  /** Each finalizer about to update a customer has its present row, and no other is about to update it. */
  ghost predicate Fresh(w: World) {
    && (forall q, c | 0 <= q < |w.procs| && Updates(w.procs[q], c) :: c in w.customers && w.procs[q].read == w.customers[c])
    && (forall q, r, c | 0 <= q < r < |w.procs| :: !(Updates(w.procs[q], c) && Updates(w.procs[r], c)))
  }

  /** The value is the initial one plus the USDC amounts counted, and canonical once any was added. */
  ghost predicate WorthOk(w: World, c: nat)
    requires c in w.customers && c in w.born
  {
    && Worth(w.customers[c]) == Worth(w.born[c]) + Total(w.payments, w.counted, c)
    && (if AnyUsdc(w.payments, w.counted, c) then IsNormal(w.customers[c].lifetimeValue)
        else w.customers[c].lifetimeValue == w.born[c].lifetimeValue)
  }

  ghost predicate MoneyOk(w: World) {
    Fresh(w) && w.customers.Keys == w.born.Keys && forall c | c in w.customers :: WorthOk(w, c)
  }

  /** A customer is read for an update only when no other finalizer is about to update it. */
  ghost predicate NoOverlap(w: World, t: Turn) {
    t.Go? && t.proc < |w.procs| && w.procs[t.proc].Loading? && w.procs[t.proc].payment.customerId.Some? ==>
      forall r | 0 <= r < |w.procs| :: !Updates(w.procs[r], w.procs[t.proc].payment.customerId.value)
  }

  lemma WorthFrame(w: World, w': World, c: nat)
    requires Inv(w) && Grows(w, w') && w'.counted == w.counted && c in w.customers && c in w.born && WorthOk(w, c)
    requires c in w'.customers && c in w'.born && w'.customers[c] == w.customers[c] && w'.born[c] == w.born[c]
    ensures WorthOk(w', c)
  {
    SumsFrame(w.payments, w'.payments, w.counted, c);
  }

  /** The row a finalizer writes shows the old value plus the amount exactly if what it read still stands. */
  lemma UpdateIsExactIff(now: Customer, read: Customer, p: Payment)
    requires IsPlain(now) && IsPlain(read) && p.terms.currency == "USDC" && Counted(now, read, p).Ok?
    ensures var after := Counted(now, read, p).value;
      && Grammatical(p.terms.amount) && after.paymentCount == now.paymentCount + 1
      && (Worth(after) == Worth(now) + Value(p.terms.amount) <==> Worth(read) == Worth(now))
  {
    CountedWorth(now, read, p);
  }

  lemma UpdateWorth(w: World, q: nat, p: Payment, c: nat)
    requires Inv(w) && MoneyOk(w) && q < |w.procs| && c in w.customers && w.procs[q] == Updating(p, w.customers[c])
    requires p.customerId == Some(c) && Counted(w.customers[c], w.customers[c], p).Ok?
    ensures MoneyOk(CountIn(w, q, p.id, c, Counted(w.customers[c], w.customers[c], p).value))
  {
    var row := Counted(w.customers[c], w.customers[c], p).value;
    assert PcOk(w, w.procs[q]) && CustomerOk(w, c);
    CountedWorth(w.customers[c], w.customers[c], p);
    CountInWorth(w, q, p, c, row);
    CountInFresh(w, q, p.id, c, row);
  }

  lemma CountInWorth(w: World, q: nat, p: Payment, c: nat, row: Customer)
    requires MoneyOk(w) && q < |w.procs| && c in w.customers && PcOk(w, w.procs[q]) && w.procs[q] == Updating(p, w.customers[c])
    requires p.customerId == Some(c) && (p.terms.currency == "USDC" ==>
      Grammatical(p.terms.amount) && Worth(row) == Worth(w.customers[c]) + Value(p.terms.amount) && IsNormal(row.lifetimeValue))
    requires p.terms.currency != "USDC" ==>
      Worth(row) == Worth(w.customers[c]) && row.lifetimeValue == w.customers[c].lifetimeValue
    ensures var w' := CountIn(w, q, p.id, c, row); w'.customers.Keys == w'.born.Keys && forall d | d in w'.customers :: WorthOk(w', d)
  {
    var w' := CountIn(w, q, p.id, c, row);
    forall d | d in w'.customers ensures WorthOk(w', d) {
      assert WorthOk(w, d);
      ListedWorth(w, w', p, c, d);
    }
  }

  lemma CountInFresh(w: World, q: nat, id: nat, c: nat, row: Customer)
    requires Fresh(w) && q < |w.procs| && c in w.customers && Updates(w.procs[q], c)
    ensures Fresh(CountIn(w, q, id, c, row))
  {
    var w' := CountIn(w, q, id, c, row);
    forall r, d | 0 <= r < |w'.procs| && Updates(w'.procs[r], d) ensures d in w'.customers && w'.procs[r].read == w'.customers[d] {
      assert r != q && w'.procs[r] == w.procs[r];
    }
  }

  lemma ListedWorth(w: World, w': World, p: Payment, c: nat, d: nat)
    requires w'.payments == w.payments && w'.counted == w.counted + [p.id] && w'.born == w.born
    requires p.id in w.payments && p.SameIdentity(w.payments[p.id]) && p.customerId == Some(c)
    requires d in w.customers && d in w.born && d in w'.customers && WorthOk(w, d)
    requires d != c ==> w'.customers[d] == w.customers[d]
    requires d == c && p.terms.currency == "USDC" ==>
      && Grammatical(p.terms.amount) && Worth(w'.customers[c]) == Worth(w.customers[c]) + Value(p.terms.amount)
      && IsNormal(w'.customers[c].lifetimeValue)
    requires d == c && p.terms.currency != "USDC" ==>
      Worth(w'.customers[c]) == Worth(w.customers[c]) && w'.customers[c].lifetimeValue == w.customers[c].lifetimeValue
    ensures WorthOk(w', d)
  {
    TotalsAppend(w.payments, w.counted, p.id, d);
    AnyUsdcAppend(w.payments, w.counted, p.id, d);
  }

  /** A turn that updates no customer. */
  ghost predicate LeavesTotals(w: World, w': World) {
    && w'.counted == w.counted && (forall c | c in w.customers :: c in w'.customers && w'.customers[c] == w.customers[c])
    && (forall c | c in w.born :: c in w'.born && w'.born[c] == w.born[c])
    && (forall c | c in w'.customers && c !in w.customers :: c in w'.born && w'.customers[c] == w'.born[c])
  }

  lemma LeavesWorth(w: World, w': World)
    requires Inv(w) && Inv(w') && MoneyOk(w) && Grows(w, w') && LeavesTotals(w, w') && Fresh(w')
    ensures MoneyOk(w')
  {
    forall c | c in w'.customers ensures WorthOk(w', c) {
      if c in w.customers {
        assert WorthOk(w, c);
        WorthFrame(w, w', c);
      } else {
        NewCustomer(w, c);
        SumsFrame(w.payments, w'.payments, w.counted, c);
      }
    }
  }

  lemma OthersLeave(w: World, t: Turn)
    requires Inv(w) && Fresh(w) && !t.Go?
    ensures LeavesTotals(w, Step(w, t)) && Fresh(Step(w, t))
  {
    OthersTotals(w, t);
    OthersProcs(w, t);
    StillFresh(w, Step(w, t));
  }

  lemma OthersTotals(w: World, t: Turn)
    requires Inv(w) && !t.Go?
    ensures LeavesTotals(w, Step(w, t))
  {
  }

  lemma OthersProcs(w: World, t: Turn)
    requires !t.Go?
    ensures Step(w, t).procs == w.procs || exists id :: Step(w, t).procs == w.procs + [Start(id)]
  {
  }

  lemma StillFresh(w: World, w': World)
    requires Fresh(w) && LeavesTotals(w, w') && (w'.procs == w.procs || exists id :: w'.procs == w.procs + [Start(id)])
    ensures Fresh(w')
  {
  }

  lemma ProcLeaves(w: World, w': World, q: nat)
    requires q < |w.procs| == |w'.procs| && w'.procs == w.procs[q := w'.procs[q]] && Fresh(w)
    requires w'.customers == w.customers && w'.born == w.born && w'.counted == w.counted
    requires forall c | Updates(w'.procs[q], c) ::
      c in w.customers && w'.procs[q].read == w.customers[c] && forall r | 0 <= r < |w.procs| && r != q :: !Updates(w.procs[r], c)
    ensures LeavesTotals(w, w') && Fresh(w')
  {
  }

  lemma MoneyKept(w: World, t: Turn)
    requires Inv(w) && MoneyOk(w) && NoOverlap(w, t)
    ensures MoneyOk(Step(w, t))
  {
    if !t.Go? {
      OthersMoney(w, t);
    } else if t.proc < |w.procs| {
      if w.procs[t.proc].Updating? { UpdaterMoney(w, t); } else { GoMoney(w, t); }
    }
  }

  lemma OthersMoney(w: World, t: Turn)
    requires Inv(w) && MoneyOk(w) && !t.Go?
    ensures MoneyOk(Step(w, t))
  {
    StepKeeps(w, t);
    OthersLeave(w, t);
    LeavesWorth(w, Step(w, t));
  }

  lemma UpdaterMoney(w: World, t: Turn)
    requires Inv(w) && MoneyOk(w) && t.Go? && t.proc < |w.procs| && w.procs[t.proc].Updating?
    ensures MoneyOk(Step(w, t))
  {
    UpdaterIsFresh(w, t.proc);
    StepUpdates(w, t);
    UpdateMoney(w, t.proc, w.procs[t.proc].payment, w.procs[t.proc].payment.customerId.value, t.fault);
  }

  lemma StepUpdates(w: World, t: Turn)
    requires t.Go? && t.proc < |w.procs| && w.procs[t.proc].Updating?
    ensures Step(w, t) == Update(w, t.proc, w.procs[t.proc].payment, w.procs[t.proc].read, t.fault)
  {
  }

  lemma UpdateMoney(w: World, q: nat, p: Payment, c: nat, fault: Fault)
    requires Inv(w) && MoneyOk(w) && q < |w.procs| && c in w.customers && p.customerId == Some(c)
    requires w.procs[q] == Updating(p, w.customers[c])
    ensures MoneyOk(Update(w, q, p, w.customers[c], fault))
  {
    UpdateShape(w, q, p, w.customers[c], fault);
    if fault != Before && Counted(w.customers[c], w.customers[c], p).Ok? {
      UpdateWorth(w, q, p, c);
    } else {
      UpdateKeeps(w, q, p, w.customers[c], fault);
      EndsMoney(w, Goto(w, q, Over), q);
    }
  }

  lemma UpdaterIsFresh(w: World, q: nat)
    requires Inv(w) && Fresh(w) && q < |w.procs| && w.procs[q].Updating?
    ensures var p := w.procs[q].payment;
      && p.customerId.Some? && p.customerId.value in w.customers && w.procs[q].read == w.customers[p.customerId.value]
      && w.procs[q] == Updating(p, w.customers[p.customerId.value])
  {
    assert PcOk(w, w.procs[q]);
    assert Updates(w.procs[q], w.procs[q].payment.customerId.value);
  }

  lemma EndsMoney(w: World, w': World, q: nat)
    requires Inv(w) && MoneyOk(w) && q < |w.procs| && w' == Goto(w, q, Over) && Inv(w') && Grows(w, w')
    ensures MoneyOk(w')
  {
    ProcLeaves(w, w', q);
    LeavesWorth(w, w');
  }

  lemma GoMoney(w: World, t: Turn)
    requires Inv(w) && MoneyOk(w) && t.Go? && t.proc < |w.procs| && !w.procs[t.proc].Updating? && NoOverlap(w, t)
    ensures MoneyOk(Step(w, t))
  {
    StepKeeps(w, t);
    GoShape(w, t);
    GoReads(w, t);
    ProcLeaves(w, Step(w, t), t.proc);
    LeavesWorth(w, Step(w, t));
  }

  lemma GoShape(w: World, t: Turn)
    requires t.Go? && t.proc < |w.procs| && !w.procs[t.proc].Updating?
    ensures var w' := Step(w, t);
      && |w'.procs| == |w.procs| && w'.procs == w.procs[t.proc := w'.procs[t.proc]]
      && w'.customers == w.customers && w'.born == w.born && w'.counted == w.counted
  {
  }

  lemma GoReads(w: World, t: Turn)
    requires t.Go? && t.proc < |w.procs| && !w.procs[t.proc].Updating? && t.proc < |Step(w, t).procs|
    ensures var pc := Step(w, t).procs[t.proc];
      pc.Updating? ==>
        && w.procs[t.proc] == Loading(pc.payment) && pc.payment.customerId.Some?
        && pc.payment.customerId.value in w.customers && pc.read == w.customers[pc.payment.customerId.value]
  {
  }

  // ---------- nothing completed is forgotten ----------

  predicate Carries(pc: Pc, id: nat) {
    (pc.Loading? || pc.Updating?) && pc.payment.id == id
  }

  ghost predicate Carried(w: World, id: nat) {
    exists q | 0 <= q < |w.procs| :: Carries(w.procs[q], id)
  }

  ghost predicate AllCounted(w: World) {
    forall id | IsCompleted(w, id) && w.payments[id].customerId.Some? :: id in w.counted || Carried(w, id)
  }

  predicate FaultFree(t: Turn) {
    t.Go? ==> t.fault == NoFault
  }

  lemma CarrierMoves(w: World, t: Turn, id: nat)
    requires Inv(w) && t.Go? && t.fault == NoFault && t.proc < |w.procs| && Carries(w.procs[t.proc], id) &&
      w.payments[id].customerId.Some?
    ensures var w' := Step(w, t); t.proc < |w'.procs| && (Carries(w'.procs[t.proc], id) || id in w'.counted)
  {
    var q, p := t.proc, w.procs[t.proc].payment;
    assert PcOk(w, w.procs[q]) && PaymentOk(w, id);
    if w.procs[q].Updating? {
      CanBeCounted(w.customers[p.customerId.value], w.procs[q].read, p);
      UpdateShape(w, q, p, w.procs[q].read, NoFault);
    }
  }

  lemma OnlyOwnMoves(w: World, t: Turn)
    ensures var w' := Step(w, t);
      && |w.procs| <= |w'.procs| && w.counted <= w'.counted
      && forall r | 0 <= r < |w.procs| && !(t.Go? && r == t.proc) :: w'.procs[r] == w.procs[r]
  {
    if t.Go? && t.proc < |w.procs| && w.procs[t.proc].Updating? {
      UpdateLists(w, t.proc, w.procs[t.proc].payment, w.procs[t.proc].read, t.fault);
    }
  }

  lemma AllCountedKept(w: World, t: Turn)
    requires Inv(w) && AllCounted(w) && FaultFree(t)
    ensures AllCounted(Step(w, t))
  {
    var w' := Step(w, t);
    OnlyOwnMoves(w, t);
    StepKeeps(w, t);
    forall id | IsCompleted(w', id) && w'.payments[id].customerId.Some? ensures id in w'.counted || Carried(w', id) {
      if IsCompleted(w, id) {
        StillCounted(w, t, id);
      } else {
        BecameCompleted(w, t, id);
        WinnerCarries(w, t, id);
      }
    }
  }

  lemma StillCounted(w: World, t: Turn, id: nat)
    requires Inv(w) && FaultFree(t) && IsCompleted(w, id) && (id in w.counted || Carried(w, id)) &&
      w.payments[id].customerId.Some?
    ensures id in Step(w, t).counted || Carried(Step(w, t), id)
  {
    OnlyOwnMoves(w, t);
    if id !in w.counted {
      var q: nat :| 0 <= q < |w.procs| && Carries(w.procs[q], id);
      if t.Go? && t.proc == q { CarrierMoves(w, t, id); }
      assert Step(w, t).procs[q] == w.procs[q] ==> Carries(Step(w, t).procs[q], id);
    }
  }

  lemma WinnerCarries(w: World, t: Turn, id: nat)
    requires Inv(w) && Wins(w, t, id) && t.fault == NoFault
    ensures Carried(Step(w, t), id)
  {
    assert PaymentOk(w, id);
    assert Carries(Step(w, t).procs[t.proc], id);
  }

  // ---------- runs ----------

  /** No second transition has read a payment when it is completed, and no updates of one customer overlap. */
  ghost predicate Careful(w: World, schedule: seq<Turn>)
    decreases |schedule|
  {
    schedule == [] || (OneReader(w, schedule[0]) && NoOverlap(w, schedule[0]) && Careful(Step(w, schedule[0]), schedule[1..]))
  }

  predicate NoFaults(schedule: seq<Turn>) {
    forall i | 0 <= i < |schedule| :: FaultFree(schedule[i])
  }

  lemma {:induction false} CarefulKeeps(w: World, schedule: seq<Turn>)
    requires Inv(w) && Sole(w) && MoneyOk(w) && Careful(w, schedule)
    ensures var w' := Run(w, schedule); Inv(w') && Sole(w') && MoneyOk(w')
    decreases |schedule|
  {
    if schedule != [] {
      StepKeeps(w, schedule[0]);
      SoleKept(w, schedule[0]);
      MoneyKept(w, schedule[0]);
      CarefulKeeps(Step(w, schedule[0]), schedule[1..]);
    }
  }

  lemma {:induction false} NothingForgotten(w: World, schedule: seq<Turn>)
    requires Inv(w) && AllCounted(w) && NoFaults(schedule)
    ensures AllCounted(Run(w, schedule))
    decreases |schedule|
  {
    if schedule != [] {
      StepKeeps(w, schedule[0]);
      AllCountedKept(w, schedule[0]);
      NothingForgotten(Step(w, schedule[0]), schedule[1..]);
    }
  }

  /** The customer's completed payments. */
  ghost function CompletedOf(w: World, c: nat): set<nat> {
    set id | id in w.payments && w.payments[id].status == Completed && w.payments[id].customerId == Some(c)
  }

  /**
   * Crashes, repeats and all: the totals are the initial ones plus the number, and the USDC sum, of a set of the
   * customer's completed payments.
   */
  lemma TotalsAreConserved(schedule: seq<Turn>, c: nat)
    requires Careful(INIT, schedule) && c in Run(INIT, schedule).customers
    ensures var w := Run(INIT, schedule); var theirs := Theirs(w.payments, w.counted, c);
      && c in w.born && theirs <= CompletedOf(w, c)
      && w.customers[c].paymentCount == w.born[c].paymentCount + |theirs|
      && Worth(w.customers[c]) == Worth(w.born[c]) + SumOver(w.payments, theirs, c)
  {
    var w := Run(INIT, schedule);
    CarefulKeeps(INIT, schedule);
    SoleMeansDistinct(w);
    assert CustomerOk(w, c) && WorthOk(w, c);
    CountIsCardinality(w.payments, w.counted, c);
    TotalIsSum(w.payments, w.counted, c);
    forall id | id in Theirs(w.payments, w.counted, c) ensures id in CompletedOf(w, c) { assert IsCompleted(w, id); }
  }

  /**
   * Without crashes, once no finalizer is about to count a payment of the customer: `paymentCount` has grown by the
   * number of the customer's completed payments, and `lifetimeValue` by the sum of their USDC amounts, exactly.
   */
  lemma TotalsAreExact(schedule: seq<Turn>, c: nat)
    requires Careful(INIT, schedule) && NoFaults(schedule) && c in Run(INIT, schedule).customers
    requires var w := Run(INIT, schedule); forall id | id in CompletedOf(w, c) :: !Carried(w, id)
    ensures var w := Run(INIT, schedule);
      && c in w.born && w.customers[c].paymentCount == w.born[c].paymentCount + |CompletedOf(w, c)|
      && Worth(w.customers[c]) == Worth(w.born[c]) + SumOver(w.payments, CompletedOf(w, c), c)
  {
    var w := Run(INIT, schedule);
    TotalsAreConserved(schedule, c);
    NothingForgotten(INIT, schedule);
    assert CompletedOf(w, c) == Theirs(w.payments, w.counted, c) by {
      forall id | id in CompletedOf(w, c) ensures id in w.counted { assert IsCompleted(w, id); }
    }
  }

  // ---------- serial jobs ----------

  /** A finality job starts only when the one before has ended: the queue's concurrency is one. */
  ghost predicate Serial(w: World, schedule: seq<Turn>)
    decreases |schedule|
  {
    schedule == []
    || ((schedule[0].Finalize? ==> forall q | 0 <= q < |w.procs| :: w.procs[q] == Over) && Serial(Step(w, schedule[0]), schedule[1..]))
  }

  ghost predicate OneActive(w: World) {
    forall q, r | 0 <= q < r < |w.procs| :: w.procs[q] == Over || w.procs[r] == Over
  }

  lemma OverStays(w: World, t: Turn)
    ensures var w' := Step(w, t);
      |w.procs| <= |w'.procs| && forall q | 0 <= q < |w.procs| && w.procs[q] == Over :: w'.procs[q] == Over
    ensures !t.Finalize? ==> |Step(w, t).procs| == |w.procs|
    ensures t.Finalize? ==> |Step(w, t).procs| == |w.procs| + 1
  {
    OnlyOwnMoves(w, t);
    if t.Go? && t.proc < |w.procs| && w.procs[t.proc].Updating? {
      UpdateLists(w, t.proc, w.procs[t.proc].payment, w.procs[t.proc].read, t.fault);
    }
  }

  lemma OneActiveKept(w: World, t: Turn)
    requires OneActive(w) && (t.Finalize? ==> forall q | 0 <= q < |w.procs| :: w.procs[q] == Over)
    ensures OneActive(Step(w, t))
  {
    OverStays(w, t);
  }

  /** Serial jobs never meet a second reader or an overlapping update, whatever the other workers do in between. */
  lemma {:induction false} SerialIsCareful(w: World, schedule: seq<Turn>)
    requires OneActive(w) && Serial(w, schedule)
    ensures Careful(w, schedule)
    decreases |schedule|
  {
    if schedule != [] {
      OneActiveKept(w, schedule[0]);
      SerialIsCareful(Step(w, schedule[0]), schedule[1..]);
    }
  }

  /** Serial jobs leave exact totals whenever the last one has ended. */
  lemma SerialTotalsAreExact(schedule: seq<Turn>, c: nat)
    requires Serial(INIT, schedule) && NoFaults(schedule) && c in Run(INIT, schedule).customers
    requires forall q | 0 <= q < |Run(INIT, schedule).procs| :: Run(INIT, schedule).procs[q] == Over
    ensures var w := Run(INIT, schedule);
      && c in w.born && w.customers[c].paymentCount == w.born[c].paymentCount + |CompletedOf(w, c)|
      && Worth(w.customers[c]) == Worth(w.born[c]) + SumOver(w.payments, CompletedOf(w, c), c)
  {
    SerialIsCareful(INIT, schedule);
    TotalsAreExact(schedule, c);
  }

  // ---------- the order does not matter ----------

  /** Two careful runs that count the same payments of the same customer leave the same totals, to the character. */
  lemma {:induction false} OrderDoesNotMatter(s: seq<Turn>, s': seq<Turn>, c: nat)
    requires Careful(INIT, s) && Careful(INIT, s')
    requires var w, w' := Run(INIT, s), Run(INIT, s');
      && c in w.born && c in w'.born && w.born[c] == w'.born[c]
      && (forall id :: id in w.counted <==> id in w'.counted)
      && (forall id | id in w.counted :: id in w.payments && id in w'.payments && w'.payments[id].SameIdentity(w.payments[id]))
    ensures var w, w' := Run(INIT, s), Run(INIT, s');
      && c in w.customers && c in w'.customers
      && w.customers[c].paymentCount == w'.customers[c].paymentCount && w.customers[c].lifetimeValue == w'.customers[c].lifetimeValue
  {
    var w, w' := Run(INIT, s), Run(INIT, s');
    CarefulKeeps(INIT, s);
    CarefulKeeps(INIT, s');
    SoleMeansDistinct(w);
    SoleMeansDistinct(w');
    SameTotals(w, w', c);
  }

  lemma SameTotals(w: World, w': World, c: nat)
    requires Inv(w) && Inv(w') && MoneyOk(w) && MoneyOk(w') && Distinct(w.counted) && Distinct(w'.counted)
    requires c in w.born && c in w'.born && w.born[c] == w'.born[c] && forall id :: id in w.counted <==> id in w'.counted
    requires forall id | id in w.counted :: id in w.payments && id in w'.payments && w'.payments[id].SameIdentity(w.payments[id])
    ensures c in w.customers && c in w'.customers
    ensures w.customers[c].paymentCount == w'.customers[c].paymentCount &&
      w.customers[c].lifetimeValue == w'.customers[c].lifetimeValue
  {
    SumsFrame(w.payments, w'.payments, w'.counted, c);
    SameSetSameTotal(w.payments, w.counted, w'.counted, c);
    SameUsdc(w.payments, w.counted, w'.counted, c);
    assert CustomerOk(w, c) && CustomerOk(w', c);
    SameSpelling(w, w', c);
  }

  /** Equal totals are spelt alike: untouched if no USDC was added, canonical otherwise. */
  lemma SameSpelling(w: World, w': World, c: nat)
    requires c in w.customers && c in w'.customers && c in w.born && c in w'.born && w.born[c] == w'.born[c]
    requires WorthOk(w, c) && WorthOk(w', c) && Total(w.payments, w.counted, c) == Total(w'.payments, w'.counted, c)
    requires AnyUsdc(w.payments, w.counted, c) <==> AnyUsdc(w'.payments, w'.counted, c)
    ensures w.customers[c].lifetimeValue == w'.customers[c].lifetimeValue
  {
    if AnyUsdc(w.payments, w.counted, c) {
      var v, v' := w.customers[c].lifetimeValue, w'.customers[c].lifetimeValue;
      GrammaticalNotEmpty(v);
      GrammaticalNotEmpty(v');
      NormalIsUnique(v, v');
    }
  }

  // ---------- what goes wrong otherwise ----------

  const NEWCOMER := Customer(0, "0.00", None)
  const THE_TERMS := Target("memo", "dest", "1", "USDC", Test, None)
  const PAID := TransactionData("hash", "payer", None)

  lemma PlainTexts()
    ensures IsPlain(NEWCOMER) && Grammatical("1")
  {
    assert PointAt("0.00", 1) by { assert "0.00"[..1] == "0" && "0.00"[2..] == "00"; }
    assert IsPlainNumeral("1");
  }

  /** A customer with one payment, paid and confirmed. */
  lemma OneConfirmed() returns (s: seq<Turn>, row: Payment)
    ensures row == ToConfirmed(0, PAID, 0).Apply(ToPending(0).Apply(NewPayment(Draft(0, 0, Some(0), THE_TERMS))))
    ensures Run(INIT, s) == World(map[0 := row], map[0 := NEWCOMER], [], [], map[0 := NEWCOMER])
  {
    PlainTexts();
    var draft := Draft(0, 0, Some(0), THE_TERMS);
    var born := map[0 := NEWCOMER];
    row := NewPayment(draft);
    s := Extended([], Enroll(0, NEWCOMER), World(map[], born, [], [], born));
    s := Extended(s, Insert(draft), World(map[0 := row], born, [], [], born));
    s := Extended(s, Advance(ToPending(0)), World(map[0 := ToPending(0).Apply(row)], born, [], [], born));
    row := ToPending(0).Apply(row);
    s := Extended(s, Advance(ToConfirmed(0, PAID, 0)), World(map[0 := ToConfirmed(0, PAID, 0).Apply(row)], born, [], [], born));
    row := ToConfirmed(0, PAID, 0).Apply(row);
  }

  lemma Extended(s: seq<Turn>, t: Turn, w: World) returns (s': seq<Turn>)
    requires Step(Run(INIT, s), t) == w
    ensures s' == s + [t] && Run(INIT, s') == w
  {
    RunOneMore(INIT, s, t);
    s' := s + [t];
  }

  /** Two transitions read the one payment confirmed before either completes it; both jobs count it. */
  lemma {:induction false} CountedTwice() returns (schedule: seq<Turn>)
    ensures var w := Run(INIT, schedule);
      w.counted == [0, 0] && 0 in w.customers && 0 in w.born && w.born[0] == NEWCOMER
      && w.customers[0].paymentCount == 2 && |CompletedOf(w, 0)| == 1
  {
    var s, row := OneConfirmed();
    s := TwoReaders(s, row);
    RunKeeps(INIT, s);
    var w := Run(INIT, s);
    schedule := s + BOTH;
    RunAppend(INIT, s, BOTH);
    TwiceFrom(w);
  }

  const BOTH: seq<Turn> := [Next(0)] + ([Next(0), Next(0)] + [Next(1)] + [Next(1), Next(1)])

  lemma TwiceFrom(w: World)
    requires Inv(w) && w.procs == [Swapping(0), Swapping(0)] && w.counted == [] && w.born == map[0 := NEWCOMER]
    requires w.payments.Keys == {0} && w.payments[0].status == Confirmed && w.payments[0].customerId == Some(0)
    ensures var w' := Run(w, BOTH);
      w'.counted == [0, 0] && 0 in w'.customers && w'.born == w.born && w'.customers[0].paymentCount == 2 && |CompletedOf(w', 0)| == 1
  {
    BothCount(w, 0, 1, 0);
    assert BOTH[1..] == [Next(0), Next(0)] + [Next(1)] + [Next(1), Next(1)];
    OnePayment(w, BOTH);
    RunKeeps(w, BOTH);
    TwoCounted(Run(w, BOTH));
  }

  lemma TwoReaders(s0: seq<Turn>, row: Payment) returns (s: seq<Turn>)
    requires Run(INIT, s0) == World(map[0 := row], map[0 := NEWCOMER], [], [], map[0 := NEWCOMER])
    requires row.status == Confirmed && row.transactionHash.Some?
    ensures Run(INIT, s) == World(map[0 := row], map[0 := NEWCOMER], [Swapping(0), Swapping(0)], [], map[0 := NEWCOMER])
  {
    var rows, born, yes := map[0 := row], map[0 := NEWCOMER], Found(true);
    s := Extended(s0, Finalize(0), World(rows, born, [Start(0)], [], born));
    s := Extended(s, Finalize(0), World(rows, born, [Start(0), Start(0)], [], born));
    s := Extended(s, Go(0, yes, 0, NoFault), World(rows, born, [Confirming(0), Start(0)], [], born));
    s := Extended(s, Go(1, yes, 0, NoFault), World(rows, born, [Confirming(0), Confirming(0)], [], born));
    s := Extended(s, Next(0), World(rows, born, [Swapping(0), Confirming(0)], [], born));
    s := Extended(s, Next(1), World(rows, born, [Swapping(0), Swapping(0)], [], born));
  }

  /** Finalizers insert nothing and enroll nobody. */
  lemma {:induction false} OnePayment(w: World, schedule: seq<Turn>)
    requires forall t | t in schedule :: t.Go?
    requires Inv(w)
    ensures Run(w, schedule).payments.Keys == w.payments.Keys && Run(w, schedule).born == w.born
    ensures forall id | id in w.payments :: Run(w, schedule).payments[id].SameIdentity(w.payments[id])
    decreases |schedule|
  {
    if schedule != [] {
      assert schedule[0] in schedule;
      StepKeeps(w, schedule[0]);
      SameKeys(w, schedule[0]);
      OnePayment(Step(w, schedule[0]), schedule[1..]);
    }
  }

  lemma SameKeys(w: World, t: Turn)
    requires t.Go?
    ensures Step(w, t).payments.Keys == w.payments.Keys && Step(w, t).born == w.born
  {
  }

  lemma TwoCounted(w: World)
    requires Inv(w) && w.counted == [0, 0] && w.payments.Keys == {0} && w.payments[0].customerId == Some(0) &&
      w.born == map[0 := NEWCOMER]
    ensures 0 in w.customers && w.customers[0].paymentCount == 2 && |CompletedOf(w, 0)| == 1
  {
    assert CustomerOk(w, 0) && IsCompleted(w, 0);
    assert [0, 0][..1] == [0] && [0][..0] == [];
    assert CountFor(w.payments, [0], 0) == 1;
    assert CompletedOf(w, 0) == {0};
  }

  /** Two confirmed payments of one customer. */
  function TwoRows(): (rows: map<nat, Payment>)
    ensures rows.Keys == {0, 1} && forall id | id in rows :: rows[id].status == Confirmed && rows[id].transactionHash.Some?
  {
    map[0 := ToConfirmed(0, PAID, 0).Apply(NewPayment(Draft(0, 0, Some(0), THE_TERMS))),
        1 := ToConfirmed(1, PAID.(transactionHash := "other"), 0).Apply(NewPayment(Draft(1, 1, Some(0), THE_TERMS)))]
  }

  lemma TwoConfirmed() returns (s: seq<Turn>)
    ensures Run(INIT, s) == World(TwoRows(), map[0 := NEWCOMER], [], [], map[0 := NEWCOMER])
  {
    PlainTexts();
    var row;
    s, row := OneConfirmed();
    var draft, other, born := Draft(1, 1, Some(0), THE_TERMS), PAID.(transactionHash := "other"), map[0 := NEWCOMER];
    var new1 := NewPayment(draft);
    s := Extended(s, Insert(draft), World(map[0 := row, 1 := new1], born, [], [], born));
    s := Extended(s, Advance(ToPending(1)), World(map[0 := row, 1 := ToPending(1).Apply(new1)], born, [], [], born));
    s := Extended(s, Advance(ToConfirmed(1, other, 0)), World(TwoRows(), born, [], [], born));
  }

  lemma BothAsked(s0: seq<Turn>) returns (s: seq<Turn>)
    requires Run(INIT, s0) == World(TwoRows(), map[0 := NEWCOMER], [], [], map[0 := NEWCOMER])
    ensures Run(INIT, s) == World(TwoRows(), map[0 := NEWCOMER], [Confirming(0), Confirming(1)], [], map[0 := NEWCOMER])
  {
    var born, yes := map[0 := NEWCOMER], Found(true);
    s := Extended(s0, Finalize(0), World(TwoRows(), born, [Start(0)], [], born));
    s := Extended(s, Finalize(1), World(TwoRows(), born, [Start(0), Start(1)], [], born));
    s := Extended(s, Go(0, yes, 0, NoFault), World(TwoRows(), born, [Confirming(0), Start(1)], [], born));
    s := Extended(s, Go(1, yes, 0, NoFault), World(TwoRows(), born, [Confirming(0), Confirming(1)], [], born));
  }

  lemma BothChecked(s0: seq<Turn>) returns (s: seq<Turn>)
    requires Run(INIT, s0) == World(TwoRows(), map[0 := NEWCOMER], [Confirming(0), Confirming(1)], [], map[0 := NEWCOMER])
    ensures Run(INIT, s) == World(TwoRows(), map[0 := NEWCOMER], [Swapping(0), Swapping(1)], [], map[0 := NEWCOMER])
  {
    s := Extended(s0, Next(0), World(TwoRows(), map[0 := NEWCOMER], [Swapping(0), Confirming(1)], [], map[0 := NEWCOMER]));
    s := Extended(s, Next(1), World(TwoRows(), map[0 := NEWCOMER], [Swapping(0), Swapping(1)], [], map[0 := NEWCOMER]));
  }

  function Done(id: nat): Payment
    requires id in TwoRows()
  {
    ToCompleted(id, 0).Apply(TwoRows()[id])
  }

  lemma BothLoad(s0: seq<Turn>) returns (s: seq<Turn>)
    requires Run(INIT, s0) == World(TwoRows(), map[0 := NEWCOMER], [Swapping(0), Swapping(1)], [], map[0 := NEWCOMER])
    ensures Run(INIT, s) ==
      World(map[0 := Done(0), 1 := Done(1)], map[0 := NEWCOMER],
            [Updating(Done(0), NEWCOMER), Updating(Done(1), NEWCOMER)], [], map[0 := NEWCOMER])
  {
    var born, rows := map[0 := NEWCOMER], map[0 := Done(0), 1 := Done(1)];
    s := Extended(s0, Next(0), World(TwoRows()[0 := Done(0)], born, [Loading(Done(0)), Swapping(1)], [], born));
    s := Extended(s, Next(1), World(rows, born, [Loading(Done(0)), Loading(Done(1))], [], born));
    s := Extended(s, Next(0), World(rows, born, [Updating(Done(0), NEWCOMER), Loading(Done(1))], [], born));
    s := Extended(s, Next(1), World(rows, born, [Updating(Done(0), NEWCOMER), Updating(Done(1), NEWCOMER)], [], born));
  }

  lemma OneIsOne()
    ensures Grammatical("1") && Value("1") == 1.0
  {
    PlainTexts();
    Parts("1");
    assert Numeral("1") == 10 * Numeral("") + 1;
  }

  /**
   * Two finalizers of different payments of one customer read the customer before either updates it: both payments are
   * counted, and one amount is lost.
   */
  lemma {:induction false} OverlapLosesValue() returns (schedule: seq<Turn>)
    ensures var w := Run(INIT, schedule);
      && w.customers.Keys == w.born.Keys == {0} && w.customers[0].paymentCount == w.born[0].paymentCount + 2 && |CompletedOf(w, 0)| == 2
      && Worth(w.customers[0]) == Worth(w.born[0]) + 1.0 && SumOver(w.payments, CompletedOf(w, 0), 0) == 2.0
  {
    var s := TwoConfirmed();
    s := BothAsked(s);
    s := BothChecked(s);
    s := BothLoad(s);
    RunKeeps(INIT, s);
    var w := Run(INIT, s);
    schedule := s + [Next(0)] + [Next(1)];
    RunOneMore(INIT, s, Next(0));
    RunOneMore(INIT, s + [Next(0)], Next(1));
    StaleUpdates(w);
  }

  lemma StaleUpdates(w: World)
    requires w == World(map[0 := Done(0), 1 := Done(1)], map[0 := NEWCOMER],
                        [Updating(Done(0), NEWCOMER), Updating(Done(1), NEWCOMER)], [], map[0 := NEWCOMER])
    ensures var w' := Step(Step(w, Next(0)), Next(1));
      && w'.customers.Keys == w'.born.Keys == {0} && w'.born == w.born && w'.customers[0].paymentCount == 2 && |CompletedOf(w', 0)| == 2
      && Worth(w'.customers[0]) == Worth(NEWCOMER) + 1.0 && SumOver(w'.payments, CompletedOf(w', 0), 0) == 2.0
  {
    PlainTexts();
    var row := OneUpdate(w, 0, Done(0), NEWCOMER);
    var w1 := Step(w, Next(0));
    var row' := OneUpdate(w1, 1, Done(1), NEWCOMER);
    SumOfTwo(Step(w1, Next(1)));
  }

  lemma OneUpdate(w: World, q: nat, p: Payment, read: Customer) returns (row: Customer)
    requires q < |w.procs| && w.procs[q] == Updating(p, read) && p.customerId == Some(0) && p.terms == THE_TERMS
    requires 0 in w.customers && IsPlain(read) && IsPlain(w.customers[0])
    ensures Step(w, Next(q)) == CountIn(w, q, p.id, 0, row)
    ensures IsPlain(row) && row.paymentCount == w.customers[0].paymentCount + 1 && Worth(row) == Worth(read) + 1.0
  {
    OneIsOne();
    CanBeCounted(w.customers[0], read, p);
    CountedWorth(w.customers[0], read, p);
    UpdateShape(w, q, p, read, NoFault);
    row := Counted(w.customers[0], read, p).value;
  }

  lemma SumOfTwo(w: World)
    requires w.payments == map[0 := Done(0), 1 := Done(1)]
    ensures |CompletedOf(w, 0)| == 2 && SumOver(w.payments, CompletedOf(w, 0), 0) == 2.0
  {
    var rows := w.payments;
    assert CompletedOf(w, 0) == Theirs(rows, [0, 1], 0) == {0, 1};
    TotalIsSum(rows, [0, 1], 0);
    TotalOfTwo(rows);
  }

  lemma TotalOfTwo(rows: map<nat, Payment>)
    requires rows == map[0 := Done(0), 1 := Done(1)]
    ensures Total(rows, [0, 1], 0) == 2.0
  {
    OneIsOne();
    TotalsAppend(rows, [], 0, 0);
    TotalsAppend(rows, [0], 1, 0);
    assert [] + [0] == [0] && [0] + [1] == [0, 1];
  }
}
