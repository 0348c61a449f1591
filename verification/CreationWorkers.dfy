/**
 * `PaymentsService.create` as it is written: idempotency calls around the creation, with its failure path
 * (src/modules/payments/payments.service.ts). Other requests may run between any two operations.
 */
module CreationWorkers {
  import opened Wrappers
  import opened Idempotency
  import opened Replays

  /** What the caller gets: a 201 with the stored or new response, one of the two conflicts, or another error. */
  datatype Answer = Created(response: Option<Response>) | Reused | InFlight | Error

  /** Which operations of the call fail, and whether before or after taking effect. */
  datatype Faults = Faults(check: Fault, reserve: Fault, create: Fault, follow: Fault, complete: Fault, metrics: Fault, cleanup: Fault)
  {
    predicate None() {
      check == reserve == create == follow == complete == metrics == NoFault
    }
  }

  /** What other requests do in the pauses of the call. */
  datatype Pauses = Pauses(
    afterCheck: seq<Turn>, afterReserve: seq<Turn>, afterCreate: seq<Turn>, afterFollow: seq<Turn>, beforeCleanup: seq<Turn>)
  {
    predicate Others(p: nat) {
      && Elsewhere(afterCheck, p) && Elsewhere(afterReserve, p) && Elsewhere(afterCreate, p)
      && Elsewhere(afterFollow, p) && Elsewhere(beforeCleanup, p)
    }

    predicate Quiet() {
      afterCheck == afterReserve == afterCreate == afterFollow == beforeCleanup == []
    }
  }

  predicate Elsewhere(turns: seq<Turn>, p: nat) {
    forall t | t in turns && t.Go? :: t.proc != p
  }

  lemma {:induction false} RunAppend(w: World, s: seq<Turn>, t: seq<Turn>)
    ensures Run(w, s + t) == Run(Run(w, s), t)
    decreases |s|
  {
    if s == [] {
      assert s + t == t;
    } else {
      assert (s + t)[1..] == s[1..] + t;
      RunAppend(Step(w, s[0]), s[1..], t);
    }
  }

  lemma {:induction false} OthersLeaveAlone(w: World, turns: seq<Turn>, p: nat)
    requires p < |w.procs| && Elsewhere(turns, p)
    ensures p < |Run(w, turns).procs| && Run(w, turns).procs[p] == w.procs[p]
    decreases |turns|
  {
    if turns != [] {
      assert turns[0] in turns;
      OneMoves(w, turns[0], p);
      OthersLeaveAlone(Step(w, turns[0]), turns[1..], p);
    }
  }

  /** The record of a key that `p` reserved is changed by nobody else. */
  lemma {:induction false} OthersKeepRecord(w: World, turns: seq<Turn>, p: nat, key: Key)
    requires StatusesOk(w) && p < |w.procs| && Elsewhere(turns, p) && Owns(w, p, key) && key in w.records
    ensures var w' := Run(w, turns); Owns(w', p, key) && key in w'.records && w'.records[key] == w.records[key]
    decreases |turns|
  {
    if turns != [] {
      var t := turns[0];
      assert t in turns;
      StatusesStep(w, t);
      OneMoves(w, t, p);
      if t.Go? && t.proc < |w.procs| {
        OwnRecordOnly(w, t.proc, t.fault, t.freshId, t.body, key);
      }
      OthersKeepRecord(Step(w, t), turns[1..], p, key);
    }
  }

  class CreationStore {
    const idempotency: IdempotencyService
    var payments: map<nat, Key>
    /** Where every request is, and which reserved a key: nothing the code decides depends on these. */
    var procs: seq<Proc>
    var owners: map<Key, nat>
    ghost var ran: seq<Turn>

    function Now(): World
      reads this, idempotency
    {
      World(idempotency.records, payments, procs, owners)
    }

    ghost predicate Valid()
      reads this, idempotency
    {
      Now() == Run(INIT, ran)
    }

    /** Request `p` is at this point of the call, and is still the request for this key and hash. */
    predicate At(p: nat, key: Key, hash: string, pc: Pc)
      reads this
    {
      p < |procs| && procs[p].key == key && procs[p].requestHash == hash && procs[p].pc == pc
    }

    /** Request `p` reserved the key, and the record has its hash and this status. */
    predicate Reserved(p: nat, key: Key, hash: string, status: nat)
      reads this, idempotency
    {
      && key in owners && owners[key] == p
      && key in idempotency.records && idempotency.records[key].requestHash == hash
      && idempotency.records[key].responseStatus == status
    }

    lemma ValidMeansOk()
      requires Valid()
      ensures StatusesOk(Now())
    {
      StatusesRun(INIT, ran);
    }

    constructor ()
      ensures Valid() && ran == [] && fresh(idempotency)
    {
      idempotency := new IdempotencyService();
      payments, procs, owners, ran := map[], [], map[], [];
    }

    method Interfere(p: nat, others: seq<Turn>)
      requires Valid() && p < |procs| && Elsewhere(others, p)
      modifies this, idempotency
      ensures Valid() && ran == old(ran) + others && p < |procs| && procs[p] == old(procs)[p]
      ensures forall status, hash | old(Reserved(p, procs[p].key, hash, status)) :: Reserved(p, procs[p].key, hash, status)
      ensures others == [] ==> Now() == old(Now())
    {
      ValidMeansOk();
      if Owns(Now(), p, procs[p].key) && procs[p].key in idempotency.records {
        OthersKeepRecord(Now(), others, p, procs[p].key);
      }
      RunAppend(INIT, ran, others);
      OthersLeaveAlone(Now(), others, p);
      var w := Run(Now(), others);
      payments, procs, owners := w.payments, w.procs, w.owners;
      idempotency.records := w.records;
      ran := ran + others;
    }

    method Continue(p: nat, me: Proc, ghost turn: Turn)
      requires p < |procs| && Set(Now(), p, me) == Step(Run(INIT, ran), turn)
      modifies this`procs, this`ran
      ensures Valid() && ran == old(ran) + [turn] && procs == old(procs)[p := me]
    {
      RunAppend(INIT, ran, [turn]);
      assert Run(Run(INIT, ran), [turn]) == Run(Step(Run(INIT, ran), turn), []);
      procs := procs[p := me];
      ran := ran + [turn];
    }

    /** `check`: an answer at once, or nothing for a new key. */
    method CheckKey(p: nat, key: Key, hash: string, fault: Fault) returns (answer: Option<Answer>)
      requires Valid() && At(p, key, hash, Checking)
      modifies this`procs, this`ran
      ensures Valid() && old(ran) <= ran
      ensures match answer
              case None => At(p, key, hash, Reserving)
              case Some(a) => At(p, key, hash, Final(a)) && (a.Created? ==> procs[p].answer == a.response)
      ensures key in owners ==> owners[key] != p
      ensures answer.Some? && answer.value.Created? ==>
        key in idempotency.records && idempotency.records[key] == Record(hash, 201, answer.value.response)
      ensures fault == NoFault ==>
        answer == if key in idempotency.records then Some(AnswerOf(idempotency.records[key], hash)) else None
    {
      ValidMeansOk();
      assert ProcOk(Now(), p);
      assert key in idempotency.records ==> StatusOk(Now(), key);
      var me := procs[p];
      if fault != NoFault {
        Continue(p, me.(pc := AnsweredError), Go(p, fault, 0, ""));
        return Some(Error);
      }
      var r := idempotency.Check(key, hash);
      match r
      case Fresh =>
        Continue(p, me.(pc := Reserving), Go(p, fault, 0, ""));
        answer := None;
      case Cached(response) =>
        Continue(p, me.(pc := Answered201, answer := response), Go(p, fault, 0, ""));
        answer := Some(Created(response));
      case KeyReused =>
        Continue(p, me.(pc := AnsweredReused), Go(p, fault, 0, ""));
        answer := Some(Reused);
      case KeyInFlight =>
        Continue(p, me.(pc := AnsweredInFlight), Go(p, fault, 0, ""));
        answer := Some(InFlight);
    }

    /** `reserve`, outside the try block: the insert under the unique index. */
    method ReserveKey(p: nat, key: Key, hash: string, fault: Fault) returns (answer: Option<Answer>)
      requires Valid() && At(p, key, hash, Reserving)
      modifies idempotency, this`owners, this`procs, this`ran
      ensures Valid() && old(ran) <= ran
      ensures match answer
              case None => At(p, key, hash, Creating)
              case Some(a) => At(p, key, hash, Final(a)) && !a.Created?
      ensures answer.None? ==> Reserved(p, key, hash, 0)
      ensures answer == Some(Error) && key in owners && owners[key] == p ==> Reserved(p, key, hash, 0)
      ensures procs[p].answer == None
      ensures fault == NoFault ==> answer == if key in old(idempotency.records) then Some(InFlight) else None
      ensures key in old(idempotency.records) ==> idempotency.records == old(idempotency.records)
    {
      ValidMeansOk();
      assert ProcOk(Now(), p);
      var me := procs[p];
      if fault != Before {
        var ok := idempotency.Reserve(key, hash);
        if !ok {
          Continue(p, me.(pc := AnsweredInFlight), Go(p, fault, 0, ""));
          return Some(InFlight);
        }
        owners := owners[key := p];
      }
      Continue(p, me.(pc := if fault == NoFault then Creating else AnsweredError), Go(p, fault, 0, ""));
      answer := if fault == NoFault then None else Some(Error);
    }

    /** From the customer to `repo.create`: the payment row, or an exception. */
    method InsertPayment(p: nat, key: Key, hash: string, freshId: nat, fault: Fault) returns (ok: bool)
      requires Valid() && At(p, key, hash, Creating)
      modifies this`payments, this`procs, this`ran
      ensures Valid() && old(ran) <= ran && At(p, key, hash, if ok then AfterInsert else Failing)
      ensures ok ==> procs[p].made == Some(freshId)
      ensures ok <==> fault == NoFault && freshId !in old(payments)
      ensures payments == if fault == Before || freshId in old(payments) then old(payments) else old(payments)[freshId := key]
      ensures procs[p].answer == old(procs)[p].answer
    {
      var me := procs[p];
      if fault == Before || freshId in payments {
        Continue(p, me.(pc := Failing), Go(p, fault, freshId, ""));
        return false;
      }
      payments := payments[freshId := key];
      ok := fault == NoFault;
      Continue(p, me.(pc := if ok then AfterInsert else Failing, made := Some(freshId)), Go(p, fault, freshId, ""));
    }

    /** The created event, `toPending`, and the response built from the pending row. */
    method FollowUp(p: nat, key: Key, hash: string, freshId: nat, body: string, fault: Fault) returns (ok: bool)
      requires Valid() && At(p, key, hash, AfterInsert) && procs[p].made == Some(freshId)
      modifies this`procs, this`ran
      ensures Valid() && old(ran) <= ran && At(p, key, hash, if ok then Completing else Failing)
      ensures ok <==> fault == NoFault
      ensures procs[p].answer == if ok then Some(Response(freshId, body)) else old(procs)[p].answer
    {
      var me := procs[p];
      ok := fault == NoFault;
      Continue(p, if ok then me.(pc := Completing, answer := Some(Response(freshId, body))) else me.(pc := Failing), Go(p, fault, 0, body));
    }

    /** `complete` with 201. */
    method CompleteKey(p: nat, key: Key, hash: string, response: Response, fault: Fault) returns (ok: bool)
      requires Valid() && At(p, key, hash, Completing) && procs[p].answer == Some(response)
      modifies idempotency, this`procs, this`ran
      ensures Valid() && old(ran) <= ran && At(p, key, hash, if ok then Completed else Failing)
      ensures procs[p].answer == Some(response) && (ok <==> fault == NoFault)
      ensures old(Reserved(p, key, hash, 0)) ==> Reserved(p, key, hash, if fault == Before then 0 else 201)
      ensures old(Reserved(p, key, hash, 0)) && fault != Before ==> idempotency.records[key] == Record(hash, 201, Some(response))
    {
      var me := procs[p];
      if fault != Before { idempotency.Complete(key, 201, Some(response)); }
      ok := fault == NoFault;
      Continue(p, me.(pc := if ok then Completed else Failing), Go(p, fault, 0, ""));
    }

    /** The log line and the metric that end the try block. */
    method Record201(p: nat, key: Key, hash: string, fault: Fault) returns (ok: bool)
      requires Valid() && At(p, key, hash, Completed)
      modifies this`procs, this`ran
      ensures Valid() && old(ran) <= ran && At(p, key, hash, if ok then Answered201 else Failing)
      ensures procs[p].answer == old(procs)[p].answer && (ok <==> fault == NoFault)
    {
      ok := fault == NoFault;
      Continue(p, procs[p].(pc := if ok then Answered201 else Failing), Go(p, fault, 0, ""));
    }

    /** The catch block: the key goes back to the sentinel, and a failure to write that is swallowed. */
    method CleanUp(p: nat, key: Key, hash: string, ghost status: nat, fault: Fault)
      requires Valid() && At(p, key, hash, Failing) && Reserved(p, key, hash, status)
      modifies idempotency, this`procs, this`ran
      ensures Valid() && old(ran) <= ran && At(p, key, hash, AnsweredError) && procs[p].answer == old(procs)[p].answer
      ensures Reserved(p, key, hash, if fault == Before then status else 0)
    {
      if fault != Before { idempotency.Complete(key, 0, None); }
      Continue(p, procs[p].(pc := AnsweredError), Go(p, fault, 0, ""));
    }

    /** The try block from the follow-up on. */
    method FinishTry(p: nat, key: Key, hash: string, freshId: nat, body: string, f: Faults, gap: Pauses) returns (ok: bool)
      requires Valid() && At(p, key, hash, AfterInsert) && procs[p].made == Some(freshId) && gap.Others(p)
      requires Reserved(p, key, hash, 0) && procs[p].answer == None
      modifies this, idempotency
      ensures Valid() && old(ran) <= ran && At(p, key, hash, if ok then Answered201 else Failing)
      ensures ok ==> procs[p].answer == Some(Response(freshId, body))
      ensures ok ==> Reserved(p, key, hash, 201) && idempotency.records[key] == Record(hash, 201, Some(Response(freshId, body)))
      ensures !ok ==> Reserved(p, key, hash, StoredBy(procs[p].answer, f.complete))
      ensures f.None() ==> ok
      ensures gap.Quiet() ==> payments == old(payments)
    {
      ok := FollowUp(p, key, hash, freshId, body, f.follow);
      if !ok { return; }
      Interfere(p, gap.afterFollow);
      ok := CompleteKey(p, key, hash, Response(freshId, body), f.complete);
      if !ok { return; }
      ok := Record201(p, key, hash, f.metrics);
    }

    /** The status the try block leaves: a success once it is stored. */
    static function StoredBy(built: Option<Response>, complete: Fault): nat {
      if built.Some? && complete != Before then 201 else 0
    }

    /** The status a failed creation leaves: a success only if it was stored and the clean-up could not undo it. */
    static function LeftBehind(built: Option<Response>, f: Faults): nat {
      if f.cleanup == Before then StoredBy(built, f.complete) else 0
    }

    /** The try block and its catch block. */
    method TryCreate(p: nat, key: Key, hash: string, freshId: nat, body: string, f: Faults, gap: Pauses) returns (answer: Answer)
      requires Valid() && At(p, key, hash, Creating) && gap.Others(p)
      requires Reserved(p, key, hash, 0) && procs[p].answer == None
      modifies this, idempotency
      ensures Valid() && old(ran) <= ran && At(p, key, hash, Final(answer))
      ensures answer == Error || (answer == Created(Some(Response(freshId, body))) && procs[p].answer == answer.response)
      ensures answer.Created? ==> Reserved(p, key, hash, 201) && idempotency.records[key] == Record(hash, 201, answer.response)
      ensures answer == Error ==> Reserved(p, key, hash, LeftBehind(procs[p].answer, f))
      ensures f.None() && gap.Quiet() && freshId !in old(payments) ==>
        answer == Created(Some(Response(freshId, body))) && payments == old(payments)[freshId := key]
    {
      var ok := Try(p, key, hash, freshId, body, f, gap);
      if ok { return Created(Some(Response(freshId, body))); }
      Recover(p, key, hash, StoredBy(procs[p].answer, f.complete), gap.beforeCleanup, f.cleanup);
      answer := Error;
    }

    method Try(p: nat, key: Key, hash: string, freshId: nat, body: string, f: Faults, gap: Pauses) returns (ok: bool)
      requires Valid() && At(p, key, hash, Creating) && gap.Others(p)
      requires Reserved(p, key, hash, 0) && procs[p].answer == None
      modifies this, idempotency
      ensures Valid() && old(ran) <= ran && At(p, key, hash, if ok then Answered201 else Failing)
      ensures ok ==> procs[p].answer == Some(Response(freshId, body))
      ensures ok ==> Reserved(p, key, hash, 201) && idempotency.records[key] == Record(hash, 201, Some(Response(freshId, body)))
      ensures !ok ==> Reserved(p, key, hash, StoredBy(procs[p].answer, f.complete))
      ensures f.None() && gap.Quiet() && freshId !in old(payments) ==> ok && payments == old(payments)[freshId := key]
    {
      ok := InsertPayment(p, key, hash, freshId, f.create);
      if ok {
        Interfere(p, gap.afterCreate);
        ok := FinishTry(p, key, hash, freshId, body, f, gap);
      }
    }

    method Recover(p: nat, key: Key, hash: string, ghost status: nat, others: seq<Turn>, fault: Fault)
      requires Valid() && At(p, key, hash, Failing) && Reserved(p, key, hash, status) && Elsewhere(others, p)
      modifies this, idempotency
      ensures Valid() && old(ran) <= ran && At(p, key, hash, AnsweredError) && procs[p].answer == old(procs)[p].answer
      ensures Reserved(p, key, hash, if fault == Before then status else 0)
    {
      Interfere(p, others);
      CleanUp(p, key, hash, status, fault);
    }

    /** What a key that is known answers a request with this hash. */
    static function AnswerOf(record: Record, hash: string): Answer {
      if record.requestHash != hash then Reused
      else if record.responseStatus == 0 then InFlight else Created(record.response)
    }

    /** The request ends where its answer says. */
    static function Final(answer: Answer): Pc {
      match answer
      case Created(_) => Answered201
      case Reused => AnsweredReused
      case InFlight => AnsweredInFlight
      case Error => AnsweredError
    }

    /** A 201 carries a response, and the payment in it exists and was created under this key. */
    lemma AnswerIsOwn(p: nat, key: Key, hash: string)
      requires Valid() && At(p, key, hash, Answered201)
      ensures procs[p].answer.Some? && procs[p].answer.value.paymentId in payments &&
        payments[procs[p].answer.value.paymentId] == key
    {
      AnswersAgree(ran, p, p);
    }

    /**
     * `create`: whatever fails and whatever other requests do, the call ends in one of the four answers, and a 201
     * is the response of a payment of this very key, stored under it: the next check with the hash answers the same. If
     * the request that reserved the key answers an error, the key holds the sentinel, unless the success had been stored
     * and the clean-up failed. Undisturbed, a new key creates the payment and a known one is answered from its record.
     */
    method Create(p: nat, key: Key, hash: string, freshId: nat, body: string, f: Faults, gap: Pauses) returns (answer: Answer)
      requires Valid() && At(p, key, hash, Checking) && gap.Others(p)
      modifies this, idempotency
      ensures Valid() && old(ran) <= ran && At(p, key, hash, Final(answer))
      ensures answer.Created? ==>
        (answer.response.Some? && answer.response.value.paymentId in payments && payments[answer.response.value.paymentId] == key)
      ensures answer.Created? ==>
        key in idempotency.records && idempotency.records[key] == Record(hash, 201, answer.response)
      ensures answer.Created? ==> Lookup(idempotency.records, key, hash) == Cached(answer.response)
      ensures answer == Error && key in owners && owners[key] == p ==>
        Reserved(p, key, hash, if procs[p].answer.Some? && f.complete != Before && f.cleanup == Before then 201 else 0)
      ensures f.None() && gap.Quiet() && key !in old(idempotency.records) && freshId !in old(payments) ==>
        answer == Created(Some(Response(freshId, body))) && payments == old(payments)[freshId := key]
      ensures f.None() && key in old(idempotency.records) ==>
        answer == AnswerOf(old(idempotency.records)[key], hash) && payments == old(payments)
    {
      var cached := CheckKey(p, key, hash, f.check);
      if cached.Some? {
        answer := cached.value;
      } else {
        Interfere(p, gap.afterCheck);
        answer := ReserveAndTry(p, key, hash, freshId, body, f, gap);
      }
      if answer.Created? { AnswerIsOwn(p, key, hash); }
    }

    method ReserveAndTry(p: nat, key: Key, hash: string, freshId: nat, body: string, f: Faults, gap: Pauses)
      returns (answer: Answer)
      requires Valid() && At(p, key, hash, Reserving) && gap.Others(p)
      modifies this, idempotency
      ensures Valid() && old(ran) <= ran && At(p, key, hash, Final(answer))
      ensures answer.Created? ==> procs[p].answer == answer.response
      ensures answer.Created? ==> Reserved(p, key, hash, 201) && idempotency.records[key] == Record(hash, 201, answer.response)
      ensures answer == Error && key in owners && owners[key] == p ==> Reserved(p, key, hash, LeftBehind(procs[p].answer, f))
      ensures f.None() && gap.Quiet() && key !in old(idempotency.records) && freshId !in old(payments) ==>
        answer == Created(Some(Response(freshId, body))) && payments == old(payments)[freshId := key]
    {
      var refused := ReserveKey(p, key, hash, f.reserve);
      if refused.Some? { return refused.value; }
      Interfere(p, gap.afterReserve);
      answer := TryCreate(p, key, hash, freshId, body, f, gap);
    }
  }
}
