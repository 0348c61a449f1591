/**
 * A customer's totals, and what they should be: the sum over a set of payments
 * (updateCustomerAggregates in src/modules/reconciler/reconciler.service.ts).
 */
module Aggregates {
  import opened Wrappers
  import opened Amounts
  import opened Lifecycle

  datatype Customer = Customer(paymentCount: nat, lifetimeValue: string, lastPaymentAt: Option<int>)

  /** `customer.lifetimeValue || '0'`. */
  function OrZero(s: string): string {
    if s == "" then "0" else s
  }

  /**
   * The customer row after counting a payment: the counter is incremented in the row as it is `now`, but the value is
   * computed from the row as it was `read`. An error is thrown on an ungrammatical total or amount.
   */
  function Counted(now: Customer, read: Customer, p: Payment): Result<Customer, Operand> {
    var c := now.(paymentCount := now.paymentCount + 1, lastPaymentAt := p.completedAt);
    if p.terms.currency != "USDC" then Ok(c)
    else
      match AddDecimalStrings(OrZero(read.lifetimeValue), p.terms.amount)
      case Ok(sum) => Ok(c.(lifetimeValue := sum))
      case Err(e) => Err(e)
  }

  /** The total a customer row shows, as a number. */
  ghost function Worth(c: Customer): real {
    if Grammatical(OrZero(c.lifetimeValue)) then Value(OrZero(c.lifetimeValue)) else 0.0
  }

  predicate IsPlain(c: Customer) {
    Grammatical(OrZero(c.lifetimeValue))
  }

  lemma CountedWorth(now: Customer, read: Customer, p: Payment)
    requires IsPlain(now) && IsPlain(read) && Counted(now, read, p).Ok?
    ensures var after := Counted(now, read, p).value;
      && IsPlain(after) && after.paymentCount == now.paymentCount + 1 && after.lastPaymentAt == p.completedAt
      && (p.terms.currency == "USDC" ==>
            Grammatical(p.terms.amount) && Worth(after) == Worth(read) + Value(p.terms.amount) && IsNormal(after.lifetimeValue))
      && (p.terms.currency != "USDC" ==> Worth(after) == Worth(now) && after.lifetimeValue == now.lifetimeValue)
  {
    if p.terms.currency == "USDC" {
      AdditionIsExact(OrZero(read.lifetimeValue), p.terms.amount);
      var sum := AddDecimalStrings(OrZero(read.lifetimeValue), p.terms.amount).value;
      GrammaticalNotEmpty(sum);
    }
  }

  lemma CanBeCounted(now: Customer, read: Customer, p: Payment)
    requires IsPlain(read) && Grammatical(p.terms.amount)
    ensures Counted(now, read, p).Ok?
  {
    AdditionIsExact(OrZero(read.lifetimeValue), p.terms.amount);
  }

  lemma GrammaticalNotEmpty(v: string)
    requires Grammatical(v)
    ensures v != ""
  {
  }

  // ---------- sums ----------

  /** The USDC amount this payment adds to customer `c`. */
  ghost function Contribution(payments: map<nat, Payment>, id: nat, c: nat): real {
    if id in payments && payments[id].customerId == Some(c) && payments[id].terms.currency == "USDC"
       && Grammatical(payments[id].terms.amount)
    then Value(payments[id].terms.amount) else 0.0
  }

  ghost function Total(payments: map<nat, Payment>, ids: seq<nat>, c: nat): real {
    if ids == [] then 0.0 else Total(payments, ids[..|ids| - 1], c) + Contribution(payments, ids[|ids| - 1], c)
  }

  function CountFor(payments: map<nat, Payment>, ids: seq<nat>, c: nat): nat {
    if ids == [] then 0
    else
      var id := ids[|ids| - 1];
      CountFor(payments, ids[..|ids| - 1], c) + (if id in payments && payments[id].customerId == Some(c) then 1 else 0)
  }

  /** Whether any of these payments adds USDC to customer `c`. */
  predicate AnyUsdc(payments: map<nat, Payment>, ids: seq<nat>, c: nat) {
    exists i | 0 <= i < |ids| :: ids[i] in payments && payments[ids[i]].customerId == Some(c) && payments[ids[i]].terms.currency == "USDC"
  }

  lemma TotalsAppend(payments: map<nat, Payment>, ids: seq<nat>, id: nat, c: nat)
    ensures Total(payments, ids + [id], c) == Total(payments, ids, c) + Contribution(payments, id, c)
    ensures CountFor(payments, ids + [id], c)
         == CountFor(payments, ids, c) + (if id in payments && payments[id].customerId == Some(c) then 1 else 0)
  {
    assert (ids + [id])[..|ids + [id]| - 1] == ids;
  }

  lemma AnyUsdcAppend(payments: map<nat, Payment>, ids: seq<nat>, id: nat, c: nat)
    ensures AnyUsdc(payments, ids + [id], c) <==>
      (AnyUsdc(payments, ids, c) || (id in payments && payments[id].customerId == Some(c) && payments[id].terms.currency == "USDC"))
  {
    var all := ids + [id];
    assert all[|ids|] == id;
    assert forall i | 0 <= i < |ids| :: all[i] == ids[i];
  }

  /** The sums depend only on the identity of the payments listed. */
  lemma {:induction false} SumsFrame(payments: map<nat, Payment>, payments': map<nat, Payment>, ids: seq<nat>, c: nat)
    requires forall id | id in ids :: id in payments && id in payments' && payments'[id].SameIdentity(payments[id])
    ensures Total(payments', ids, c) == Total(payments, ids, c) && CountFor(payments', ids, c) == CountFor(payments, ids, c)
    ensures AnyUsdc(payments', ids, c) <==> AnyUsdc(payments, ids, c)
  {
    if ids != [] {
      var n := |ids| - 1;
      SumsFrame(payments, payments', ids[..n], c);
      assert ids == ids[..n] + [ids[n]];
      AnyUsdcAppend(payments, ids[..n], ids[n], c);
      AnyUsdcAppend(payments', ids[..n], ids[n], c);
    }
  }

  predicate Distinct(ids: seq<nat>) {
    forall i, j | 0 <= i < j < |ids| :: ids[i] != ids[j]
  }

  ghost function Theirs(payments: map<nat, Payment>, ids: seq<nat>, c: nat): set<nat> {
    set id | id in ids && id in payments && payments[id].customerId == Some(c)
  }

  lemma {:induction false} CountIsCardinality(payments: map<nat, Payment>, ids: seq<nat>, c: nat)
    requires Distinct(ids)
    ensures CountFor(payments, ids, c) == |Theirs(payments, ids, c)|
  {
    if ids == [] {
      assert Theirs(payments, ids, c) == {};
    } else {
      var front, last := ids[..|ids| - 1], ids[|ids| - 1];
      CountIsCardinality(payments, front, c);
      assert forall id :: id in ids <==> id in front || id == last;
      assert last !in front;
      if last in payments && payments[last].customerId == Some(c) {
        assert Theirs(payments, ids, c) == Theirs(payments, front, c) + {last};
      } else {
        assert Theirs(payments, ids, c) == Theirs(payments, front, c);
      }
    }
  }

  lemma {:induction false} TakeOut(payments: map<nat, Payment>, ids: seq<nat>, k: nat, c: nat)
    requires k < |ids|
    ensures Total(payments, ids, c) == Total(payments, ids[..k] + ids[k + 1..], c) + Contribution(payments, ids[k], c)
    ensures CountFor(payments, ids, c) == CountFor(payments, ids[..k] + ids[k + 1..], c) + CountFor(payments, [ids[k]], c)
  {
    var n := |ids| - 1;
    var rest := ids[..k] + ids[k + 1..];
    assert [ids[k]][..0] == [];
    if k < n {
      TakeOut(payments, ids[..n], k, c);
      assert rest[..n - 1] == ids[..n][..k] + ids[..n][k + 1..] && rest[n - 1] == ids[n];
    } else {
      assert rest == ids[..n];
    }
  }

  lemma {:induction false} SameSetSameTotal(payments: map<nat, Payment>, a: seq<nat>, b: seq<nat>, c: nat)
    requires Distinct(a) && Distinct(b) && forall id :: id in a <==> id in b
    ensures Total(payments, a, c) == Total(payments, b, c) && CountFor(payments, a, c) == CountFor(payments, b, c)
    decreases |a|
  {
    if a == [] {
      assert forall i: nat | i < |b| :: b[i] in b;
    } else {
      var n := |a| - 1;
      var x := a[n];
      assert x in b;
      var k :| 0 <= k < |b| && b[k] == x;
      var b' := b[..k] + b[k + 1..];
      TakeOut(payments, b, k, c);
      TakeOut(payments, a, n, c);
      assert a[..n] + a[n + 1..] == a[..n];
      SameSetWithout(a, b, k);
      SameSetSameTotal(payments, a[..n], b', c);
    }
  }

  lemma SameSetWithout(a: seq<nat>, b: seq<nat>, k: nat)
    requires Distinct(a) && Distinct(b) && a != [] && k < |b| && b[k] == a[|a| - 1] && forall id :: id in a <==> id in b
    ensures var b' := b[..k] + b[k + 1..]; Distinct(b') && forall id :: id in a[..|a| - 1] <==> id in b'
  {
    var n := |a| - 1;
    var b' := b[..k] + b[k + 1..];
    assert forall id :: id in b <==> id in b' || id == b[k];
    assert forall id :: id in a <==> id in a[..n] || id == a[n];
    assert b[k] !in b';
    assert a[n] !in a[..n];
  }

  lemma SameUsdc(payments: map<nat, Payment>, a: seq<nat>, b: seq<nat>, c: nat)
    requires forall id :: id in a <==> id in b
    ensures AnyUsdc(payments, a, c) <==> AnyUsdc(payments, b, c)
  {
    if AnyUsdc(payments, a, c) {
      var i :| 0 <= i < |a| && a[i] in payments && payments[a[i]].customerId == Some(c) && payments[a[i]].terms.currency == "USDC";
      assert a[i] in b;
      var j :| 0 <= j < |b| && b[j] == a[i];
      assert AnyUsdc(payments, b, c);
    }
    if AnyUsdc(payments, b, c) {
      var i :| 0 <= i < |b| && b[i] in payments && payments[b[i]].customerId == Some(c) && payments[b[i]].terms.currency == "USDC";
      assert b[i] in a;
      var j :| 0 <= j < |a| && a[j] == b[i];
      assert AnyUsdc(payments, a, c);
    }
  }

  /** The sum of the customer's contributions over a set, in whatever order. */
  ghost function SumOver(payments: map<nat, Payment>, ids: set<nat>, c: nat): real
    decreases |ids|
  {
    if ids == {} then 0.0
    else
      var id :| id in ids;
      SumOver(payments, ids - {id}, c) + Contribution(payments, id, c)
  }

  lemma WithoutOne(list: seq<nat>, k: nat)
    requires Distinct(list) && k < |list|
    ensures var rest := list[..k] + list[k + 1..]; Distinct(rest) && forall x :: x in rest <==> x in list && x != list[k]
  {
    var rest := list[..k] + list[k + 1..];
    assert forall x :: x in list <==> x in rest || x == list[k];
    assert list[k] !in rest;
  }

  /** Listing a set once, in any order, gives its sum. */
  lemma {:induction false} SumIsTotal(payments: map<nat, Payment>, ids: set<nat>, list: seq<nat>, c: nat)
    requires Distinct(list) && forall id :: id in list <==> id in ids
    ensures SumOver(payments, ids, c) == Total(payments, list, c)
    decreases |ids|
  {
    if list == [] {
      assert ids == {};
    } else {
      assert list[0] in ids;
      var id :| id in ids && SumOver(payments, ids, c) == SumOver(payments, ids - {id}, c) + Contribution(payments, id, c);
      assert id in list;
      var k :| 0 <= k < |list| && list[k] == id;
      TakeOut(payments, list, k, c);
      WithoutOne(list, k);
      SumIsTotal(payments, ids - {id}, list[..k] + list[k + 1..], c);
    }
  }

  /** The listed payments of customer `c`. */
  function OnlyOf(payments: map<nat, Payment>, ids: seq<nat>, c: nat): (kept: seq<nat>)
    ensures forall id :: id in kept <==> id in ids && id in payments && payments[id].customerId == Some(c)
    ensures Distinct(ids) ==> Distinct(kept)
  {
    if ids == [] then []
    else
      var n := |ids| - 1;
      assert ids == ids[..n] + [ids[n]];
      if ids[n] in payments && payments[ids[n]].customerId == Some(c) then OnlyOf(payments, ids[..n], c) + [ids[n]]
      else OnlyOf(payments, ids[..n], c)
  }

  /** Payments of other customers, or of none, add nothing. */
  lemma {:induction false} OthersAddNothing(payments: map<nat, Payment>, ids: seq<nat>, c: nat)
    ensures Total(payments, OnlyOf(payments, ids, c), c) == Total(payments, ids, c)
  {
    if ids != [] {
      var n := |ids| - 1;
      OthersAddNothing(payments, ids[..n], c);
      TotalsAppend(payments, OnlyOf(payments, ids[..n], c), ids[n], c);
    }
  }

  /** The total of a list without repetition is the sum over the set of the customer's payments in it. */
  lemma TotalIsSum(payments: map<nat, Payment>, ids: seq<nat>, c: nat)
    requires Distinct(ids)
    ensures Total(payments, ids, c) == SumOver(payments, Theirs(payments, ids, c), c)
  {
    OthersAddNothing(payments, ids, c);
    SumIsTotal(payments, Theirs(payments, ids, c), OnlyOf(payments, ids, c), c);
  }
}
