/**
 * When the customer totals are right: a payment is counted once exactly if no second transition to completed has read
 * it confirmed when the first one's compare-and-set completes it, and the sums are exact if updates of one customer do
 * not overlap. Serial jobs guarantee both, whatever the other workers do between their steps.
 */
module FinalityTheorems {
  import opened Wrappers
  import opened Lifecycle
  import opened Aggregates
  import opened Finality

  // ---------- counted once ----------

  /** The finalizer's transition has read the payment confirmed, or returned it, and the job may yet count it. */
  predicate About(pc: Pc, id: nat) {
    pc == Swapping(id) || ((pc.Loading? || pc.Updating?) && pc.payment.id == id)
  }

  /** The turn moves the payment to completed. */
  predicate Wins(w: World, t: Turn, id: nat) {
    && t.Go? && t.fault != Before && t.proc < |w.procs| && w.procs[t.proc] == Swapping(id)
    && id in w.payments && w.payments[id].status == Confirmed
  }

  /** No other transition has read the payment confirmed and is about to swap it. */
  ghost predicate OnlyReader(w: World, q: nat, id: nat) {
    forall r | 0 <= r < |w.procs| && r != q :: w.procs[r] != Swapping(id)
  }

  predicate Twice(ids: seq<nat>, id: nat) {
    exists i, j | 0 <= i < j < |ids| :: ids[i] == id && ids[j] == id
  }

  /** Completed; counted, or in the hands of one finalizer, or neither. */
  ghost predicate OnceFor(w: World, id: nat) {
    && IsCompleted(w, id) && !Twice(w.counted, id)
    && (forall q, r | 0 <= q < r < |w.procs| :: !(About(w.procs[q], id) && About(w.procs[r], id)))
    && (id in w.counted ==> forall q | 0 <= q < |w.procs| :: !About(w.procs[q], id))
  }

  /** Only finalizers already about a completed payment stay about it, and counting it ends one of them. */
  ghost predicate Narrows(w: World, t: Turn, w': World, id: nat) {
    && |w.procs| <= |w'.procs|
    && (forall r | 0 <= r < |w'.procs| && About(w'.procs[r], id) :: r < |w.procs| && About(w.procs[r], id))
    && (w'.counted == w.counted
        || exists x :: w'.counted == w.counted + [x] && (x == id ==> t.Go? && Ends(w, t.proc, w', id)))
  }

  predicate Ends(w: World, q: nat, w': World, id: nat) {
    q < |w.procs| && q < |w'.procs| && About(w.procs[q], id) && w'.procs[q] == Over
  }

  lemma CompletedNarrows(w: World, t: Turn, id: nat)
    requires Inv(w) && IsCompleted(w, id)
    ensures Narrows(w, t, Step(w, t), id)
  {
    if t.Go? && t.proc < |w.procs| {
      match w.procs[t.proc]
      case Updating(p, read) => UpdateNarrows(w, t.proc, p, read, t.fault, id);
      case Swapping(x) => ConfirmNarrows(w, t.proc, x, t.now, t.fault, id);
      case _ => RestNarrows(w, t, id);
    }
  }

  lemma UpdateNarrows(w: World, q: nat, p: Payment, read: Customer, fault: Fault, id: nat)
    requires Inv(w) && q < |w.procs| && w.procs[q] == Updating(p, read)
    ensures Narrows(w, Go(q, Unavailable, 0, fault), Update(w, q, p, read, fault), id)
  {
    UpdateLists(w, q, p, read, fault);
  }

  lemma UpdateLists(w: World, q: nat, p: Payment, read: Customer, fault: Fault)
    requires q < |w.procs|
    ensures var w' := Update(w, q, p, read, fault);
      w'.procs == w.procs[q := Over] && (w'.counted == w.counted || w'.counted == w.counted + [p.id])
  {
  }

  /** A step that lists nothing and takes nothing up. */
  lemma IdleNarrows(w: World, t: Turn, w': World, id: nat)
    requires t.Go? && t.proc < |w.procs| == |w'.procs| && w'.counted == w.counted &&
      w'.procs == w.procs[t.proc := w'.procs[t.proc]]
    requires About(w'.procs[t.proc], id) ==> About(w.procs[t.proc], id)
    ensures Narrows(w, t, w', id)
  {
  }

  lemma RestNarrows(w: World, t: Turn, id: nat)
    requires t.Go? && t.proc < |w.procs| && !w.procs[t.proc].Updating? && !w.procs[t.proc].Swapping? && IsCompleted(w, id)
    ensures Narrows(w, t, Step(w, t), id)
  {
    IdleNarrows(w, t, Step(w, t), id);
  }

  lemma ConfirmNarrows(w: World, q: nat, x: nat, now: int, fault: Fault, id: nat)
    requires Inv(w) && IsCompleted(w, id) && q < |w.procs| && w.procs[q] == Swapping(x)
    ensures Narrows(w, Go(q, Unavailable, now, fault), Complete(w, q, x, now, fault), id)
  {
    assert PcOk(w, w.procs[q]) && PaymentOk(w, x);
  }

  /** No interleaving counts such a payment a second time. */
  lemma OnceKept(w: World, t: Turn, id: nat)
    requires Inv(w) && OnceFor(w, id)
    ensures OnceFor(Step(w, t), id)
  {
    StepKeeps(w, t);
    CompletedNarrows(w, t, id);
    NarrowsOnce(w, t, Step(w, t), id);
  }

  lemma NarrowsOnce(w: World, t: Turn, w': World, id: nat)
    requires OnceFor(w, id) && Narrows(w, t, w', id) && IsCompleted(w', id)
    ensures OnceFor(w', id)
  {
    if w'.counted != w.counted {
      var x :| w'.counted == w.counted + [x] && (x == id ==> t.Go? && Ends(w, t.proc, w', id));
      OneMoreListed(w.counted, x, id);
      if x == id {
        forall r | 0 <= r < |w'.procs| ensures !About(w'.procs[r], id) {
          if r < |w.procs| && r != t.proc { assert !About(w.procs[r], id); }
        }
      }
    }
  }

  lemma OneMoreListed(ids: seq<nat>, x: nat, id: nat)
    ensures Twice(ids + [x], id) <==> Twice(ids, id) || (x == id && id in ids)
    ensures id in ids + [x] <==> id in ids || x == id
  {
    var all := ids + [x];
    assert forall i | 0 <= i < |ids| :: all[i] == ids[i];
    assert all[|ids|] == x;
    if Twice(ids, id) {
      var i, j :| 0 <= i < j < |ids| && ids[i] == id && ids[j] == id;
      assert all[i] == id && all[j] == id;
    }
    if x == id && id in ids {
      var i :| 0 <= i < |ids| && ids[i] == id;
      assert all[i] == id && all[|ids|] == id;
    }
  }

  lemma {:induction false} OnceForGood(w: World, schedule: seq<Turn>, id: nat)
    requires Inv(w) && OnceFor(w, id)
    ensures OnceFor(Run(w, schedule), id)
    decreases |schedule|
  {
    if schedule != [] {
      OnceKept(w, schedule[0], id);
      StepKeeps(w, schedule[0]);
      OnceForGood(Step(w, schedule[0]), schedule[1..], id);
    }
  }

  /** The transition that completes a payment nobody else has read confirmed. */
  lemma AloneMeansOnce(w: World, t: Turn, id: nat)
    requires Inv(w) && Wins(w, t, id) && OnlyReader(w, t.proc, id)
    ensures OnceFor(Step(w, t), id)
  {
    var w' := Step(w, t);
    assert id !in w.counted;
    forall r | 0 <= r < |w.procs| && r != t.proc ensures !About(w.procs[r], id) && w'.procs[r] == w.procs[r] {
      assert PcOk(w, w.procs[r]);
    }
    assert !Twice(w.counted, id);
  }

  /** The finalizer's next step, if it already has Horizon's answer. */
  function Next(q: nat): Turn {
    Go(q, Unavailable, 0, NoFault)
  }

  lemma Reads(w: World, q: nat, p: Payment)
    requires Inv(w) && q < |w.procs| && w.procs[q] == Loading(p) && p.customerId.Some?
    ensures p.customerId.value in w.customers
    ensures var w' := Step(w, Next(q)); w' == Goto(w, q, Updating(p, w.customers[p.customerId.value])) && Inv(w')
  {
    assert PcOk(w, w.procs[q]) && PaymentOk(w, p.id);
    StepKeeps(w, Next(q));
  }

  lemma Writes(w: World, q: nat, p: Payment, read: Customer)
    requires Inv(w) && q < |w.procs| && w.procs[q] == Updating(p, read)
    ensures var w' := Step(w, Next(q));
      Inv(w') && w'.counted == w.counted + [p.id] && w'.payments == w.payments && w'.procs == w.procs[q := Over]
  {
    assert PcOk(w, w.procs[q]) && PaymentOk(w, p.id);
    CanBeCounted(w.customers[p.customerId.value], read, p);
    UpdateShape(w, q, p, read, NoFault);
    StepKeeps(w, Next(q));
  }

  lemma Loads(w: World, q: nat, id: nat)
    requires Inv(w) && q < |w.procs| && w.procs[q] == Swapping(id) && w.payments[id].status in {Confirmed, Completed}
    ensures var w' := Step(w, Next(q));
      && Inv(w') && w'.counted == w.counted && IsCompleted(w', id) && w'.procs == w.procs[q := Loading(w'.payments[id])]
      && w'.payments[id].SameIdentity(w.payments[id]) && w'.payments[id].id == id
  {
    assert PcOk(w, w.procs[q]) && PaymentOk(w, id);
    LoadsRow(w, q, id);
    StepKeeps(w, Next(q));
  }

  lemma LoadsRow(w: World, q: nat, id: nat)
    requires q < |w.procs| && w.procs[q] == Swapping(id) && id in w.payments && w.payments[id].status in {Confirmed, Completed}
    ensures var w' := Step(w, Next(q));
      && id in w'.payments && w' == Goto(w.(payments := w'.payments), q, Loading(w'.payments[id]))
      && w'.payments[id].status == Completed && w'.payments[id].SameIdentity(w.payments[id])
  {
  }

  /** From the row in hand, two more steps count it. */
  lemma CountsIt(w: World, q: nat, p: Payment)
    requires Inv(w) && q < |w.procs| && w.procs[q] == Loading(p) && p.customerId.Some?
    ensures var w' := Run(w, [Next(q), Next(q)]);
      Inv(w') && w'.counted == w.counted + [p.id] && w'.payments == w.payments && w'.procs == w.procs[q := Over]
  {
    Reads(w, q, p);
    var w1 := Step(w, Next(q));
    Writes(w1, q, p, w.customers[p.customerId.value]);
    assert Run(w1, [Next(q)]) == Run(Step(w1, Next(q)), []);
    assert [Next(q), Next(q)][1..] == [Next(q)];
    assert w1.procs[q := Over] == w.procs[q := Over];
  }

  /** Both readers of a confirmed payment can go on to count it. */
  lemma BothCount(w: World, q: nat, r: nat, id: nat)
    requires Inv(w) && q < |w.procs| && r < |w.procs| && q != r && w.procs[q] == w.procs[r] == Swapping(id)
    requires w.payments[id].status == Confirmed && w.payments[id].customerId.Some?
    ensures var w' := Run(Step(w, Next(q)), [Next(q), Next(q)] + [Next(r)] + [Next(r), Next(r)]);
      Inv(w') && w'.counted == w.counted + [id, id]
  {
    var w1 := Step(w, Next(q));
    var w2 := Run(w1, [Next(q), Next(q)]);
    OneCounts(w, q, id);
    assert w2.procs[r] == Swapping(id);
    OneCounts(w2, r, id);
    RunOneMore(w1, [Next(q), Next(q)], Next(r));
    RunAppend(w1, [Next(q), Next(q)] + [Next(r)], [Next(r), Next(r)]);
  }

  lemma OneCounts(w: World, q: nat, id: nat)
    requires Inv(w) && q < |w.procs| && w.procs[q] == Swapping(id)
    requires w.payments[id].status in {Confirmed, Completed} && w.payments[id].customerId.Some?
    ensures var w' := Run(Step(w, Next(q)), [Next(q), Next(q)]);
      && Inv(w') && w'.counted == w.counted + [id] && w'.procs == w.procs[q := Over]
      && IsCompleted(w', id) && w'.payments[id].customerId.Some?
  {
    Loads(w, q, id);
    var w1 := Step(w, Next(q));
    CountsIt(w1, q, w1.payments[id]);
    assert w1.procs[q := Over] == w.procs[q := Over];
  }

  /** After `q` has moved the payment to completed, these turns count it twice. */
  ghost predicate Repeats(w: World, q: nat, id: nat, more: seq<Turn>) {
    Twice(Run(Step(w, Next(q)), more).counted, id)
  }

  /**
   * When a job's compare-and-set completes a payment, some continuation counts it twice exactly if the transition of
   * another job has read it confirmed by then. A job that had only asked Horizon by then is refused.
   */
  lemma CountedTwiceIff(w: World, q: nat, id: nat)
    requires Inv(w) && Wins(w, Next(q), id) && w.payments[id].customerId.Some?
    ensures (exists more :: Repeats(w, q, id, more)) <==> !OnlyReader(w, q, id)
  {
    if OnlyReader(w, q, id) {
      forall more ensures !Repeats(w, q, id, more) { AloneForGood(w, q, id, more); }
    } else {
      var r: nat :| 0 <= r < |w.procs| && r != q && w.procs[r] == Swapping(id);
      var more := TwoReadersTwice(w, q, r, id);
    }
  }

  lemma AloneForGood(w: World, q: nat, id: nat, more: seq<Turn>)
    requires Inv(w) && Wins(w, Next(q), id) && OnlyReader(w, q, id)
    ensures !Repeats(w, q, id, more)
  {
    AloneMeansOnce(w, Next(q), id);
    StepKeeps(w, Next(q));
    OnceForGood(Step(w, Next(q)), more, id);
  }

  lemma TwoReadersTwice(w: World, q: nat, r: nat, id: nat) returns (more: seq<Turn>)
    requires Inv(w) && Wins(w, Next(q), id) && w.payments[id].customerId.Some?
    requires r < |w.procs| && r != q && w.procs[r] == Swapping(id)
    ensures Repeats(w, q, id, more)
  {
    more := [Next(q), Next(q)] + [Next(r)] + [Next(r), Next(r)];
    BothCount(w, q, r, id);
    var ids, n := Run(Step(w, Next(q)), more).counted, |w.counted|;
    assert ids[n] == id && ids[n + 1] == id;
  }

  // ---------- runs in which every completing transition is alone ----------

  ghost predicate OneReader(w: World, t: Turn) {
    forall id | Wins(w, t, id) :: OnlyReader(w, t.proc, id)
  }

  ghost predicate Sole(w: World) {
    forall id | IsCompleted(w, id) :: OnceFor(w, id)
  }

  lemma BecameCompleted(w: World, t: Turn, id: nat)
    requires Inv(w) && !IsCompleted(w, id) && IsCompleted(Step(w, t), id)
    ensures Wins(w, t, id)
  {
    if t.Go? && t.proc < |w.procs| {
      assert PcOk(w, w.procs[t.proc]);
      if w.procs[t.proc].Updating? { UpdateShape(w, t.proc, w.procs[t.proc].payment, w.procs[t.proc].read, t.fault); }
    }
  }

  lemma SoleKept(w: World, t: Turn)
    requires Inv(w) && Sole(w) && OneReader(w, t)
    ensures Sole(Step(w, t))
  {
    forall id | IsCompleted(Step(w, t), id) ensures OnceFor(Step(w, t), id) {
      if IsCompleted(w, id) {
        OnceKept(w, t, id);
      } else {
        BecameCompleted(w, t, id);
        AloneMeansOnce(w, t, id);
      }
    }
  }

  lemma SoleMeansDistinct(w: World)
    requires Inv(w) && Sole(w)
    ensures Distinct(w.counted)
  {
    forall i, j | 0 <= i < j < |w.counted| ensures w.counted[i] != w.counted[j] {
      assert IsCompleted(w, w.counted[i]) && OnceFor(w, w.counted[i]);
    }
  }
}
