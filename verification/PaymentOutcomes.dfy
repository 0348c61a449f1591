/**
 * What the payment services must do when nobody disturbs them, told from the rows before and after and from what Horizon
 * reported, without the workers' own functions (src/modules/reconciler/reconciler.service.ts,
 * src/modules/payments/payments.service.ts).
 */
module PaymentOutcomes {
  import opened Wrappers
  import opened Amounts
  import opened Verifier
  import opened Lifecycle
  import opened PaymentMachine

  /** `Duplicate` is a unique index refusing a write, `OperationFailed` any other error of the store or of Horizon. */
  datatype Failure = StateTransition | Duplicate | OperationFailed | BadAmount | NotFound

  datatype Outcome = DidSkip | NoMatchYet | DidConfirm | DidFail | DidExpire | DidComplete | HorizonUnavailable

  type Rows = map<nat, Payment>

  predicate HeldByOther(rows: Rows, id: nat, hash: string) {
    exists other | other in rows :: other != id && rows[other].transactionHash == Some(hash)
  }

  /** A row that changed has one event more, of its new status and showing it; otherwise the log is as it was. */
  predicate Noted(before: Rows, after: Rows, events: seq<Event>, events': seq<Event>, id: nat) {
    if after == before then events' == events
    else id in after && events' == events + [Event(id, after[id].status, after[id])]
  }

  /** A row that was confirmed or completed shows its hash on its link; otherwise the links are as they were. */
  predicate Linked(before: Rows, after: Rows, links: map<nat, Option<string>>, links': map<nat, Option<string>>, id: nat) {
    if after != before && id in after && after[id].status in {Confirmed, Completed}
    then links' == links[after[id].linkId := after[id].transactionHash] else links' == links
  }

  /** Log and links follow the one row that may have changed. */
  predicate Followed(
    before: Rows, after: Rows, events: seq<Event>, events': seq<Event>,
    links: map<nat, Option<string>>, links': map<nat, Option<string>>, id: nat)
  {
    Noted(before, after, events, events', id) && Linked(before, after, links, links', id)
  }

  // ---------- reconciling ----------

  /** The row has failed with this code; no other row changed. */
  predicate FailedWith(before: Rows, after: Rows, id: nat, code: string)
    requires id in before
  {
    after == before[id := before[id].(status := Failed, failureCode := Some(code))]
  }

  predicate HasExpired(before: Rows, after: Rows, id: nat)
    requires id in before
  {
    after == before[id := before[id].(status := Expired)]
  }

  /** The row shows the transaction. */
  predicate ConfirmedAs(before: Rows, after: Rows, id: nat, hash: string, payer: string, issuer: Option<string>, clock: int)
    requires id in before
  {
    after == before[id := before[id].(status := Confirmed, transactionHash := Some(hash), payerAddress := Some(payer),
                                      assetIssuer := issuer, paidAt := Some(clock))]
  }

  /** The row shows the transaction of this record. */
  predicate ConfirmedBy(before: Rows, after: Rows, id: nat, record: HorizonRecord, clock: int)
    requires id in before
  {
    ConfirmedAs(before, after, id, record.transactionHash, record.from, record.assetIssuer, clock)
  }

  /** What the one record that counts makes of a pending payment, and what is answered. */
  ghost predicate Decides(
    before: Rows, after: Rows, id: nat, record: HorizonRecord, issuers: Issuers, clock: int, r: Result<Outcome, Failure>)
    requires id in before
  {
    var terms := before[id].terms;
    if record.to != terms.destinationAddress then r == Ok(NoMatchYet) && after == before
    else if !AskedAsset(record, terms, issuers) then r == Ok(DidFail) && FailedWith(before, after, id, "wrong_asset")
    else if !Grammatical(record.amount) || !Grammatical(terms.amount) then r == Err(BadAmount) && after == before
    else if Value(record.amount) < Value(terms.amount) then
      r == Ok(DidFail) && FailedWith(before, after, id, "insufficient_amount")
    else if Value(record.amount) > Value(terms.amount) then
      r == Ok(DidFail) && FailedWith(before, after, id, "wrong_amount")
    else if HeldByOther(before, id, record.transactionHash) then r == Ok(DidSkip) && after == before
    else if !InTime(record, terms) then r == Ok(DidExpire) && HasExpired(before, after, id)
    else r == Ok(DidConfirm) && ConfirmedBy(before, after, id, record, clock)
  }

  /**
   * Reconciling a pending payment against this list of records: the first successful one that bears its memo decides; if
   * there is none, nothing happens.
   */
  ghost predicate Reconciled(
    before: Rows, after: Rows, id: nat, records: seq<HorizonRecord>, issuers: Issuers, clock: int, r: Result<Outcome, Failure>)
  {
    && id in before
    && (forall k: nat | IsFirst(records, before[id].terms.linkMemo, k) :: Decides(before, after, id, records[k], issuers, clock, r))
    && ((forall x | x in records :: !(x.successful && x.memo == Some(before[id].terms.linkMemo))) ==>
          r == Ok(NoMatchYet) && after == before)
  }

  /** These rows have expired; all others are as they were. */
  predicate ExpiredAll(before: Rows, after: Rows, ids: seq<nat>) {
    && after.Keys == before.Keys
    && forall id | id in before :: after[id] == if id in ids then before[id].(status := Expired) else before[id]
  }

  lemma OneMoreExpired(before: Rows, rows: Rows, after: Rows, ids: seq<nat>, i: nat, done: bool)
    requires i < |ids| && ids[i] !in ids[..i] && ExpiredAll(before, rows, ids[..i]) && Expires(rows, after, ids[i], done)
    requires ids[i] in before && before[ids[i]].status in {Created, Pending}
    ensures done && ExpiredAll(before, after, ids[..i + 1])
  {
    assert ids[..i + 1] == ids[..i] + [ids[i]];
  }

  predicate PastDue(terms: Target, now: int) {
    terms.expiresAt.Some? && terms.expiresAt.value < now
  }

  /** One round of the poll, on a row that is pending as stored: expired if past due, reconciled if Horizon answers. */
  ghost predicate Polled(
    before: Rows, after: Rows, row: Payment, answer: Horizon, issuers: Issuers, now: int, later: int, r: Result<Outcome, Failure>)
  {
    if PastDue(row.terms, now) then r == Ok(DidExpire) && Expires(before, after, row.id, true)
    else if answer.Listing? then Reconciled(before, after, row.id, answer.records, issuers, later, r)
    else r == Ok(HorizonUnavailable) && after == before
  }

  /** The row is the stored one, waiting to be paid. */
  predicate Awaits(rows: Rows, row: Payment) {
    row.id in rows && rows[row.id] == row && row.status == Pending && row.transactionHash.None?
  }

  /** A round leaves every other row as it was. */
  lemma PolledOnlyOwn(
    before: Rows, after: Rows, row: Payment, answer: Horizon, issuers: Issuers, now: int, later: int, r: Result<Outcome, Failure>)
    requires Awaits(before, row) && Polled(before, after, row, answer, issuers, now, later, r)
    ensures forall id | id in before && id != row.id :: id in after && after[id] == before[id]
  {
    if !PastDue(row.terms, now) && answer.Listing? {
      if exists x :: x in answer.records && x.successful && x.memo == Some(row.terms.linkMemo) {
        var k := FirstExists(answer.records, row.terms.linkMemo);
        DecidesOwn(before, after, row.id, answer.records[k], issuers, later, r);
      }
    }
  }

  lemma DecidesOwn(
    before: Rows, after: Rows, id: nat, record: HorizonRecord, issuers: Issuers, clock: int, r: Result<Outcome, Failure>)
    requires id in before && Decides(before, after, id, record, issuers, clock, r)
    ensures forall x | x in before && x != id :: x in after && after[x] == before[x]
  {
  }

  /**
   * A pending payment is confirmed exactly if the first record with its memo settles its terms and no other payment holds
   * its hash; then the row shows that record.
   */
  lemma ConfirmedIff(
    before: Rows, after: Rows, id: nat, records: seq<HorizonRecord>, issuers: Issuers, clock: int, r: Result<Outcome, Failure>)
    requires Reconciled(before, after, id, records, issuers, clock, r)
    ensures r == Ok(DidConfirm) <==>
      exists k: nat :: IsFirst(records, before[id].terms.linkMemo, k) && Payable(before, id, records[k], issuers)
    ensures forall k: nat | IsFirst(records, before[id].terms.linkMemo, k) && Payable(before, id, records[k], issuers) ::
      ConfirmedBy(before, after, id, records[k], clock)
  {
    if r == Ok(DidConfirm) {
      assert exists x :: x in records && x.successful && x.memo == Some(before[id].terms.linkMemo);
      var k := FirstExists(records, before[id].terms.linkMemo);
      assert Decides(before, after, id, records[k], issuers, clock, r);
      assert Payable(before, id, records[k], issuers);
    }
  }

  ghost predicate Payable(rows: Rows, id: nat, record: HorizonRecord, issuers: Issuers)
    requires id in rows
  {
    Settles(record, rows[id].terms, issuers) && !HeldByOther(rows, id, record.transactionHash)
  }

  // ---------- creating ----------

  /** The row `create` inserts. */
  function CreatedRow(d: Draft): Payment {
    Payment(d.id, d.linkId, d.customerId, d.terms, Created, None, None, None, None, None, None, None)
  }

  /** The link, the row and its event are there; nothing else changed. */
  predicate Recorded(
    before: Rows, after: Rows, events: seq<Event>, events': seq<Event>,
    links: map<nat, Option<string>>, links': map<nat, Option<string>>, d: Draft)
  {
    && after == before[d.id := CreatedRow(d)] && links' == links[d.linkId := None]
    && events' == events + [Event(d.id, Created, CreatedRow(d))]
  }

  /** The link, the pending row and both its events are there; nothing else changed. */
  predicate Opened(
    before: Rows, after: Rows, events: seq<Event>, events': seq<Event>,
    links: map<nat, Option<string>>, links': map<nat, Option<string>>, d: Draft)
  {
    var row := CreatedRow(d).(status := Pending);
    && after == before[d.id := row] && links' == links[d.linkId := None]
    && events' == events + [Event(d.id, Created, CreatedRow(d)), Event(d.id, Pending, row)]
  }

  predicate NoRowOf(rows: Rows, linkId: nat) {
    forall id | id in rows :: rows[id].linkId != linkId
  }

  lemma RecordedThenPending(
    rows: Rows, rows1: Rows, rows2: Rows, events: seq<Event>, events1: seq<Event>, events2: seq<Event>,
    links: map<nat, Option<string>>, links1: map<nat, Option<string>>, d: Draft, r: Result<Payment, Failure>)
    requires Recorded(rows, rows1, events, events1, links, links1, d)
    requires Transitioned(rows1, rows2, events1, events2, ToPending(d.id), r)
    ensures Opened(rows, rows2, events, events2, links, links1, d) && r == Ok(CreatedRow(d).(status := Pending))
  {
  }

  // ---------- finalizing ----------

  /** Confirmed and showing a hash: the rows a finality check goes on with. */
  predicate IsPaid(row: Payment) {
    row.status == Confirmed && row.transactionHash.Some?
  }

  /** What Horizon's answer about its transaction makes of a confirmed payment that shows a hash. */
  predicate Settled(before: Rows, after: Rows, id: nat, answer: Horizon, clock: int, r: Result<Outcome, Failure>) {
    match answer
    case Transaction(true) => r == Ok(DidComplete) && Completes(before, after, id, clock, true)
    case Transaction(false) => r == Ok(DidFail) && Fails(before, after, id, "tx_unsuccessful", true)
    case Missing => r == Ok(DidFail) && Fails(before, after, id, "tx_unsuccessful", true)
    case _ => r == Ok(HorizonUnavailable) && after == before
  }

  /** The finality check of a payment that nobody disturbs. */
  predicate Finalized(before: Rows, after: Rows, id: nat, answer: Horizon, clock: int, r: Result<Outcome, Failure>) {
    if id in before && before[id].status == Completed then r == Ok(DidComplete) && after == before
    else if id !in before || !IsPaid(before[id]) then r == Ok(DidSkip) && after == before
    else Settled(before, after, id, answer, clock, r)
  }

  // ---------- what follows a verdict ----------

  /** The same in terms of the verifier's verdict. */
  ghost predicate Concluded(before: Rows, after: Rows, id: nat, verdict: VerifyResult, clock: int, r: Result<Outcome, Failure>)
    requires id in before
  {
    match verdict
    case Raised(_) => r == Err(BadAmount) && after == before
    case Match(record) =>
      HeldByOther(before, id, record.transactionHash) || (r == Ok(DidConfirm) && ConfirmedBy(before, after, id, record, clock))
    case Mismatch(code, _) =>
      match code
      case WrongAsset => r == Ok(DidFail) && FailedWith(before, after, id, "wrong_asset")
      case WrongIssuer => r == Ok(DidFail) && FailedWith(before, after, id, "wrong_asset")
      case InsufficientAmount => r == Ok(DidFail) && FailedWith(before, after, id, "insufficient_amount")
      case WrongAmount => r == Ok(DidFail) && FailedWith(before, after, id, "wrong_amount")
      case DuplicateHash => r == Ok(DidSkip) && after == before
      case LateArrival => r == Ok(DidExpire) && HasExpired(before, after, id)
      case _ => r == Ok(NoMatchYet) && after == before
  }

  /** The hashes loaded before the verdict are those that other payments hold. */
  lemma ForeignMeansHeld(w: World, records: seq<HorizonRecord>, id: nat)
    ensures forall x | x in records ::
      x.transactionHash in ForeignHashes(w, records, id) <==> HeldByOther(w.payments, id, x.transactionHash)
  {
    forall x | x in records
      ensures x.transactionHash in ForeignHashes(w, records, id) <==> HeldByOther(w.payments, id, x.transactionHash)
    {
      assert HashTaken(w, id, x.transactionHash) <==> HeldByOther(w.payments, id, x.transactionHash);
    }
  }

  lemma VerdictDecides(
    before: Rows, after: Rows, id: nat, record: HorizonRecord, known: set<string>, issuers: Issuers, clock: int,
    r: Result<Outcome, Failure>)
    requires id in before && record.successful && record.memo == Some(before[id].terms.linkMemo)
    requires record.transactionHash in known <==> HeldByOther(before, id, record.transactionHash)
    requires Concluded(before, after, id, CheckRecord(before[id].terms, record, known, issuers), clock, r)
    ensures Decides(before, after, id, record, issuers, clock, r)
  {
    CodesSayWhy(before[id].terms, record, known, issuers);
    MatchMeansSettled(before[id].terms, record, known, issuers);
  }

  /** What follows the verdict on the whole list is what the records ask for. */
  lemma ConcludedIsReconciled(
    before: Rows, after: Rows, id: nat, records: seq<HorizonRecord>, known: set<string>, issuers: Issuers, clock: int,
    r: Result<Outcome, Failure>)
    requires id in before && forall x | x in records :: x.transactionHash in known <==> HeldByOther(before, id, x.transactionHash)
    requires Concluded(before, after, id, FirstMatch(before[id].terms, records, known, issuers), clock, r)
    ensures Reconciled(before, after, id, records, issuers, clock, r)
  {
    NoMatchMeansNoCandidate(before[id].terms, records, known, issuers);
    forall k: nat | IsFirst(records, before[id].terms.linkMemo, k)
      ensures Decides(before, after, id, records[k], issuers, clock, r)
    {
      FirstDecides(before, after, id, records, k, known, issuers, clock, r);
    }
  }

  lemma FirstDecides(
    before: Rows, after: Rows, id: nat, records: seq<HorizonRecord>, k: nat, known: set<string>, issuers: Issuers, clock: int,
    r: Result<Outcome, Failure>)
    requires id in before && IsFirst(records, before[id].terms.linkMemo, k)
    requires records[k].transactionHash in known <==> HeldByOther(before, id, records[k].transactionHash)
    requires Concluded(before, after, id, FirstMatch(before[id].terms, records, known, issuers), clock, r)
    ensures Decides(before, after, id, records[k], issuers, clock, r)
  {
    FirstCandidateDecides(before[id].terms, records, k, known, issuers);
    VerdictDecides(before, after, id, records[k], known, issuers, clock, r);
  }

  // ---------- the calls that lead to a transition ----------

  /** Expiring a payment: only a created or pending one. */
  predicate Expires(before: Rows, after: Rows, id: nat, done: bool) {
    && (done <==> id in before && before[id].status in {Created, Pending})
    && if done then HasExpired(before, after, id) else after == before
  }

  /** Failing a payment: only a pending or confirmed one. */
  predicate Fails(before: Rows, after: Rows, id: nat, code: string, done: bool) {
    && (done <==> id in before && before[id].status in {Pending, Confirmed})
    && if done then FailedWith(before, after, id, code) else after == before
  }

  /** Confirming a payment: only a pending one, with a hash that no other holds. */
  predicate Confirms(before: Rows, after: Rows, id: nat, tx: TransactionData, clock: int, done: bool) {
    && (done <==> id in before && before[id].status == Pending && !HeldByOther(before, id, tx.transactionHash))
    && if done then ConfirmedAs(before, after, id, tx.transactionHash, tx.payerAddress, tx.assetIssuer, clock) else after == before
  }

  /** Completing a payment: only a confirmed one. */
  predicate Completes(before: Rows, after: Rows, id: nat, clock: int, done: bool) {
    && (done <==> id in before && before[id].status == Confirmed)
    && if done then after == before[id := before[id].(status := Completed, completedAt := Some(clock))] else after == before
  }

  /** Canceling a payment: only a created or pending one. */
  predicate Cancels(before: Rows, after: Rows, id: nat, clock: int, done: bool) {
    && (done <==> id in before && before[id].status in {Created, Pending})
    && if done then after == before[id := before[id].(status := Canceled, canceledAt := Some(clock))] else after == before
  }

  // ---------- a transition ----------

  /** The payment is there and its status may move to the goal. */
  predicate MayMove(rows: Rows, req: Request) {
    req.id in rows && rows[req.id].status in AllowedFrom(req.Goal())
  }

  predicate Clashes(rows: Rows, req: Request) {
    req.ToConfirmed? && HeldByOther(rows, req.id, req.tx.transactionHash)
  }

  /** A transition nobody disturbs: refused or rejected without a trace, or the change with its event. */
  predicate Transitioned(
    rows: Rows, rows': Rows, events: seq<Event>, events': seq<Event>, req: Request, r: Result<Payment, Failure>)
  {
    if !MayMove(rows, req) then r == Err(StateTransition) && rows' == rows && events' == events
    else if Clashes(rows, req) then r == Err(Duplicate) && rows' == rows && events' == events
    else
      var row := req.Apply(rows[req.id]);
      r == Ok(row) && rows' == rows[req.id := row] && events' == events + [Event(req.id, req.Goal(), row)]
  }

  lemma TransitionedIsNoted(
    rows: Rows, rows': Rows, events: seq<Event>, events': seq<Event>, req: Request, r: Result<Payment, Failure>)
    requires Transitioned(rows, rows', events, events', req, r)
    ensures Noted(rows, rows', events, events', req.id)
  {
    if r.Ok? { assert rows'[req.id].status == req.Goal(); }
  }

  lemma ConfirmingIs(
    rows: Rows, rows': Rows, events: seq<Event>, events': seq<Event>, id: nat, tx: TransactionData, now: int, r: Result<Payment, Failure>)
    requires Transitioned(rows, rows', events, events', ToConfirmed(id, tx, now), r)
    ensures Confirms(rows, rows', id, tx, now, r.Ok?) && Noted(rows, rows', events, events', id)
    ensures r.Ok? ==> id in rows' && rows' != rows && r.value == rows'[id] && r.value.transactionHash.Some?
  {
    TransitionedIsNoted(rows, rows', events, events', ToConfirmed(id, tx, now), r);
    if r.Ok? { assert rows'[id].status == Confirmed && rows[id].status == Pending; }
  }

  lemma ExpiringIs(rows: Rows, rows': Rows, events: seq<Event>, events': seq<Event>, id: nat, r: Result<Payment, Failure>)
    requires Transitioned(rows, rows', events, events', ToExpired(id), r)
    ensures Expires(rows, rows', id, r.Ok?) && Noted(rows, rows', events, events', id) && (r.Err? ==> r.error == StateTransition)
  {
    TransitionedIsNoted(rows, rows', events, events', ToExpired(id), r);
  }

  lemma FailingIs(
    rows: Rows, rows': Rows, events: seq<Event>, events': seq<Event>, id: nat, code: string, r: Result<Payment, Failure>)
    requires Transitioned(rows, rows', events, events', ToFailed(id, code), r)
    ensures Fails(rows, rows', id, code, r.Ok?) && Noted(rows, rows', events, events', id) &&
      (r.Err? ==> r.error == StateTransition)
  {
    TransitionedIsNoted(rows, rows', events, events', ToFailed(id, code), r);
  }

  lemma CompletingIs(
    rows: Rows, rows': Rows, events: seq<Event>, events': seq<Event>, id: nat, now: int, r: Result<Payment, Failure>)
    requires Transitioned(rows, rows', events, events', ToCompleted(id, now), r)
    ensures Completes(rows, rows', id, now, r.Ok?) && Noted(rows, rows', events, events', id)
    ensures if r.Ok? then id in rows' && rows' != rows && r.value == rows'[id] else r.error == StateTransition
  {
    TransitionedIsNoted(rows, rows', events, events', ToCompleted(id, now), r);
    if r.Ok? { assert rows'[id].status == Completed && rows[id].status == Confirmed; }
  }

  lemma CancelingIs(
    rows: Rows, rows': Rows, events: seq<Event>, events': seq<Event>, id: nat, now: int, r: Result<Payment, Failure>)
    requires Transitioned(rows, rows', events, events', ToCanceled(id, now), r)
    ensures Cancels(rows, rows', id, now, r.Ok?) && Noted(rows, rows', events, events', id)
    ensures if r.Ok? then id in rows' && r.value == rows'[id] else r.error == StateTransition
  {
    TransitionedIsNoted(rows, rows', events, events', ToCanceled(id, now), r);
  }
}
