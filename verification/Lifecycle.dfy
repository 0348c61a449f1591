/**
 * A payment row, its statuses, and the six transition requests
 * (src/modules/payments/payment-state-machine.ts).
 */
module Lifecycle {
  import opened Wrappers
  import opened Verifier

  datatype Status = Created | Pending | Confirmed | Completed | Failed | Expired | Canceled

  /** `ALLOWED_FROM`; nothing moves into `Created`. */
  function AllowedFrom(to: Status): set<Status> {
    match to
    case Created => {}
    case Pending => {Created}
    case Confirmed => {Pending}
    case Completed => {Confirmed}
    case Failed => {Pending, Confirmed}
    case Expired => {Created, Pending}
    case Canceled => {Created, Pending}
  }

  datatype Payment = Payment(
    id: nat, linkId: nat, customerId: Option<nat>, terms: Target, status: Status,
    transactionHash: Option<string>, payerAddress: Option<string>, assetIssuer: Option<string>,
    paidAt: Option<int>, completedAt: Option<int>, canceledAt: Option<int>, failureCode: Option<string>)
  {
    /** The columns no operation ever rewrites. */
    predicate SameIdentity(that: Payment) {
      id == that.id && linkId == that.linkId && customerId == that.customerId && terms == that.terms
    }

    /** The columns the confirmation writes. */
    predicate SameAttribution(that: Payment) {
      && transactionHash == that.transactionHash && paidAt == that.paidAt
      && payerAddress == that.payerAddress && assetIssuer == that.assetIssuer
    }
  }

  /** The input of `repo.create`. */
  datatype Draft = Draft(id: nat, linkId: nat, customerId: Option<nat>, terms: Target)

  function NewPayment(d: Draft): Payment {
    Payment(d.id, d.linkId, d.customerId, d.terms, Created, None, None, None, None, None, None, None)
  }

  datatype TransactionData = TransactionData(transactionHash: string, payerAddress: string, assetIssuer: Option<string>)

  /** A call of one of the six `toX` methods; `now` is the `new Date()` it takes. */
  datatype Request =
    | ToPending(id: nat)
    | ToConfirmed(id: nat, tx: TransactionData, now: int)
    | ToCompleted(id: nat, now: int)
    | ToFailed(id: nat, code: string)
    | ToExpired(id: nat)
    | ToCanceled(id: nat, now: int)
  {
    function Goal(): Status {
      match this
      case ToPending(_) => Pending
      case ToConfirmed(_, _, _) => Confirmed
      case ToCompleted(_, _) => Completed
      case ToFailed(_, _) => Failed
      case ToExpired(_) => Expired
      case ToCanceled(_, _) => Canceled
    }

    /** `data: { status: toStatus, ...extraData }`. */
    function Apply(p: Payment): Payment {
      match this
      case ToPending(_) => p.(status := Pending)
      case ToConfirmed(_, tx, now) =>
        p.(status := Confirmed, transactionHash := Some(tx.transactionHash), payerAddress := Some(tx.payerAddress),
           assetIssuer := tx.assetIssuer, paidAt := Some(now))
      case ToCompleted(_, now) => p.(status := Completed, completedAt := Some(now))
      case ToFailed(_, code) => p.(status := Failed, failureCode := Some(code))
      case ToExpired(_) => p.(status := Expired)
      case ToCanceled(_, now) => p.(status := Canceled, canceledAt := Some(now))
    }
  }

  // ---------- paths ----------

  /** Consecutive statuses are edges of the lifecycle. */
  predicate IsChain(trail: seq<Status>) {
    forall i | 0 < i < |trail| :: trail[i - 1] in AllowedFrom(trail[i])
  }

  predicate IsPath(trail: seq<Status>) {
    trail != [] && trail[0] == Created && IsChain(trail)
  }

  /** `to` can be reached from `from` along lifecycle edges, in zero or more of them. */
  ghost predicate Leads(from: Status, to: Status) {
    exists chain: seq<Status> :: IsChain(chain) && chain != [] && chain[0] == from && chain[|chain| - 1] == to
  }

  predicate IsTerminal(s: Status) {
    s in {Completed, Failed, Expired, Canceled}
  }

  function Rank(s: Status): nat {
    if s == Created then 0 else if s == Pending then 1 else if s == Confirmed then 2 else 3
  }

  /** Every edge climbs, so a chain never repeats a status, has at most four, and ends where it meets a terminal one. */
  lemma {:induction false} ChainsClimb(trail: seq<Status>, i: nat, j: nat)
    requires IsChain(trail) && i < j < |trail|
    ensures Rank(trail[i]) + (j - i) <= Rank(trail[j]) && trail[i] != trail[j] && !IsTerminal(trail[i])
  {
    if i + 1 < j {
      ChainsClimb(trail, i, j - 1);
    }
    assert trail[j - 1] in AllowedFrom(trail[j]);
  }

  lemma PathsAreShort(trail: seq<Status>)
    requires IsPath(trail)
    ensures 1 <= |trail| <= 4
    ensures forall i, j | 0 <= i < j < |trail| :: trail[i] != trail[j]
    ensures forall i | 0 <= i < |trail| - 1 :: !IsTerminal(trail[i])
  {
    forall i, j | 0 <= i < j < |trail| ensures trail[i] != trail[j] && !IsTerminal(trail[i]) {
      ChainsClimb(trail, i, j);
    }
    if |trail| > 1 {
      ChainsClimb(trail, 0, |trail| - 1);
    }
    forall i | 0 <= i < |trail| - 1 ensures !IsTerminal(trail[i]) {
      ChainsClimb(trail, i, i + 1);
    }
  }

  /** Every way a payment can go, one status after the other. */
  const LIFECYCLES: set<seq<Status>> := {
    [Created], [Created, Expired], [Created, Canceled],
    [Created, Pending], [Created, Pending, Expired], [Created, Pending, Canceled], [Created, Pending, Failed],
    [Created, Pending, Confirmed], [Created, Pending, Confirmed, Failed], [Created, Pending, Confirmed, Completed]
  }

  lemma PathsAreThese(trail: seq<Status>)
    ensures IsPath(trail) <==> trail in LIFECYCLES
  {
    if IsPath(trail) {
      PathsAreShort(trail);
      PathIsListed(trail);
    }
  }

  lemma PathIsListed(trail: seq<Status>)
    requires IsPath(trail) && |trail| <= 4 && forall i | 0 <= i < |trail| - 1 :: !IsTerminal(trail[i])
    ensures trail in LIFECYCLES
  {
    if |trail| == 1 {
      assert trail == [Created];
    } else if |trail| == 2 {
      assert trail == [Created, trail[1]] && trail[0] in AllowedFrom(trail[1]);
    } else if |trail| == 3 {
      assert trail[0] in AllowedFrom(trail[1]) && trail[1] in AllowedFrom(trail[2]);
      assert trail == [Created, Pending, trail[2]];
    } else {
      assert trail[0] in AllowedFrom(trail[1]) && trail[1] in AllowedFrom(trail[2]) && trail[2] in AllowedFrom(trail[3]);
      assert trail == [Created, Pending, Confirmed, trail[3]];
    }
  }

  /** Status `s` was held, and `t` was held then or later. */
  ghost predicate HeldThen(trail: seq<Status>, s: Status, t: Status) {
    exists i, j :: 0 <= i <= j < |trail| && trail[i] == s && trail[j] == t
  }

  lemma HeldThenLeads(trail: seq<Status>, s: Status, t: Status)
    requires IsChain(trail) && HeldThen(trail, s, t)
    ensures Leads(s, t)
  {
    var i, j :| 0 <= i <= j < |trail| && trail[i] == s && trail[j] == t;
    var chain := trail[i..j + 1];
    assert IsChain(chain) && chain[0] == s && chain[|chain| - 1] == t;
  }
}
