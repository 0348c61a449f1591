/**
 * Idempotent payment creation (src/modules/idempotency/idempotency.service.ts and
 * PaymentsService.create): check, reserve, create, complete, by any number of
 * concurrent requests, each of which may fail or crash at any point.
 *
 * Records are never removed here; the 24 hour expiry is outside the guarantee.
 */
module Idempotency {
  import opened Wrappers

  /** The scope of a key. */
  datatype Key = Key(businessId: string, apiKeyId: string, key: string)

  /** The payment a 201 carries, and the rest of its body. */
  datatype Response = Response(paymentId: nat, body: string)

  /** `responseStatus` 0 is the in-flight sentinel; its body `{}` is `None`. */
  datatype Record = Record(requestHash: string, responseStatus: nat, response: Option<Response>)

  datatype CheckResult = Fresh | Cached(response: Option<Response>) | KeyReused | KeyInFlight

  function Lookup(records: map<Key, Record>, key: Key, requestHash: string): CheckResult {
    if key !in records then Fresh
    else if records[key].requestHash != requestHash then KeyReused
    else if records[key].responseStatus == 0 then KeyInFlight
    else Cached(records[key].response)
  }

  /** `updateMany` by key: touches the record if there is one. */
  function Stored(records: map<Key, Record>, key: Key, status: nat, response: Option<Response>): map<Key, Record> {
    if key in records then records[key := records[key].(responseStatus := status, response := response)] else records
  }

  class IdempotencyService {
    var records: map<Key, Record>

    constructor ()
      ensures records == map[]
    {
      records := map[];
    }

    method Check(key: Key, requestHash: string) returns (r: CheckResult)
      ensures r.Fresh? <==> key !in records
      ensures r.KeyReused? <==> key in records && records[key].requestHash != requestHash
      ensures r.KeyInFlight? <==> key in records && records[key].requestHash == requestHash && records[key].responseStatus == 0
      ensures r.Cached? ==> key in records && r.response == records[key].response
      ensures r == Lookup(records, key, requestHash)
    {
      if key !in records { return Fresh; }
      var record := records[key];
      if record.requestHash != requestHash { return KeyReused; }
      if record.responseStatus == 0 { return KeyInFlight; }
      r := Cached(record.response);
    }

    /** The unique index admits one record per key; `false` is the in-flight conflict. */
    method Reserve(key: Key, requestHash: string) returns (ok: bool)
      modifies this
      ensures ok <==> key !in old(records)
      ensures ok ==> forall h :: Lookup(records, key, h) == if h == requestHash then KeyInFlight else KeyReused
      ensures records == if ok then old(records)[key := Record(requestHash, 0, None)] else old(records)
    {
      ok := key !in records;
      if ok { records := records[key := Record(requestHash, 0, None)]; }
    }

    /**
     * From now on a check with the hash the key was reserved under answers this response, or, for the sentinel, in
     * flight; every other check answers what it did before.
     */
    method Complete(key: Key, status: nat, response: Option<Response>)
      modifies this
      ensures key in old(records) ==>
        Lookup(records, key, old(records)[key].requestHash) == if status == 0 then KeyInFlight else Cached(response)
      ensures forall k, h | !(k == key && key in old(records) && h == old(records)[key].requestHash) ::
        Lookup(records, k, h) == Lookup(old(records), k, h)
      ensures records == Stored(old(records), key, status, response)
    {
      if key in records {
        records := records[key := records[key].(responseStatus := status, response := response)];
      }
    }
  }

  // ---------- concurrent requests ----------

  datatype Pc =
    | Checking
    | Reserving
    | Creating           // the key is reserved; customer, destination and memo lookups, the link, then the payment row
    | AfterInsert        // created event, toPending
    | Completing         // about to store the 201
    | Completed          // stored; metrics may still throw
    | Failing            // the catch block
    | Answered201
    | AnsweredReused
    | AnsweredInFlight
    | AnsweredError

  /** `made` is the row this request inserted, `answer` the response it built or read. */
  datatype Proc = Proc(key: Key, requestHash: string, pc: Pc, made: Option<nat>, answer: Option<Response>)

  /** `payments` maps each inserted row to the key it was created under; `owners` notes which request reserved a key. */
  datatype World = World(records: map<Key, Record>, payments: map<nat, Key>, procs: seq<Proc>, owners: map<Key, nat>)

  datatype Turn = Begin(key: Key, requestHash: string) | Go(proc: nat, fault: Fault, freshId: nat, body: string)

  const INIT := World(map[], map[], [], map[])

  function Set(w: World, p: nat, proc: Proc): World
    requires p < |w.procs|
  {
    w.(procs := w.procs[p := proc])
  }

  function CheckStep(w: World, p: nat, fault: Fault): World
    requires p < |w.procs|
  {
    var me := w.procs[p];
    if fault != NoFault then Set(w, p, me.(pc := AnsweredError))
    else
      match Lookup(w.records, me.key, me.requestHash)
      case Fresh => Set(w, p, me.(pc := Reserving))
      case Cached(response) => Set(w, p, me.(pc := Answered201, answer := response))
      case KeyReused => Set(w, p, me.(pc := AnsweredReused))
      case KeyInFlight => Set(w, p, me.(pc := AnsweredInFlight))
  }

  /** `reserve` is outside the try block: its own failure is answered without a `complete`. */
  function ReserveStep(w: World, p: nat, fault: Fault): World
    requires p < |w.procs|
  {
    var me := w.procs[p];
    if fault == Before then Set(w, p, me.(pc := AnsweredError))
    else if me.key in w.records then Set(w, p, me.(pc := AnsweredInFlight))
    else Set(w.(records := w.records[me.key := Record(me.requestHash, 0, None)], owners := w.owners[me.key := p]), p,
             me.(pc := if fault == After then AnsweredError else Creating))
  }

  function CreateStep(w: World, p: nat, fault: Fault, freshId: nat): World
    requires p < |w.procs|
  {
    var me := w.procs[p];
    if fault == Before || freshId in w.payments then Set(w, p, me.(pc := Failing))
    else Set(w.(payments := w.payments[freshId := me.key]), p,
             me.(pc := if fault == After then Failing else AfterInsert, made := Some(freshId)))
  }

  /** `complete` with 201 and the response, or, in the catch block, with 0 and no body. */
  function CompleteStep(w: World, p: nat, fault: Fault): World
    requires p < |w.procs|
  {
    var me := w.procs[p];
    var ok := me.pc == Completing;
    var w1 := if fault == Before then w
              else w.(records := Stored(w.records, me.key, if ok then 201 else 0, if ok then me.answer else None));
    Set(w1, p, me.(pc := if !ok then AnsweredError else if fault == NoFault then Completed else Failing))
  }

  function Move(w: World, p: nat, fault: Fault, freshId: nat, body: string): World
    requires p < |w.procs|
  {
    var me := w.procs[p];
    match me.pc
    case Checking => CheckStep(w, p, fault)
    case Reserving => ReserveStep(w, p, fault)
    case Creating => CreateStep(w, p, fault, freshId)
    case AfterInsert =>
      if fault != NoFault || me.made.None? then Set(w, p, me.(pc := Failing))
      else Set(w, p, me.(pc := Completing, answer := Some(Response(me.made.value, body))))
    case Completing => CompleteStep(w, p, fault)
    case Completed => Set(w, p, me.(pc := if fault == NoFault then Answered201 else Failing))
    case Failing => CompleteStep(w, p, fault)
    case _ => w
  }

  function Step(w: World, t: Turn): World {
    match t
    case Begin(key, hash) => w.(procs := w.procs + [Proc(key, hash, Checking, None, None)])
    case Go(p, fault, freshId, body) => if p < |w.procs| then Move(w, p, fault, freshId, body) else w
  }

  function Run(w: World, schedule: seq<Turn>): World
    decreases |schedule|
  {
    if schedule == [] then w else Run(Step(w, schedule[0]), schedule[1..])
  }

  // ---------- the invariant ----------

  predicate Owns(w: World, p: nat, key: Key) {
    key in w.owners && w.owners[key] == p
  }

  predicate IsBusy(pc: Pc) {
    pc in {Creating, AfterInsert, Completing, Completed, Failing}
  }

  predicate IsOutside(pc: Pc) {
    pc in {Checking, Reserving, AnsweredReused, AnsweredInFlight}
  }

  /** The owner of a key has its request hash in the record, and its answer is what a completed record holds. */
  ghost predicate KeyOk(w: World, key: Key)
    requires key in w.records && key in w.owners
  {
    var o := w.owners[key];
    && o < |w.procs| && w.procs[o].key == key && w.procs[o].requestHash == w.records[key].requestHash
    && (w.records[key].responseStatus != 0 ==> w.records[key].response.Some? && w.records[key].response == w.procs[o].answer)
  }

  ghost predicate KeysOk(w: World) {
    && w.owners.Keys == w.records.Keys
    && forall key | key in w.records :: KeyOk(w, key)
  }

  /** Every payment row was made by the owner of its key, and an owner knows the one row it made. */
  ghost predicate RowsOk(w: World) {
    forall id | id in w.payments ::
      var key := w.payments[id];
      key in w.owners && w.owners[key] < |w.procs| && w.procs[w.owners[key]].made == Some(id)
  }

  ghost predicate ProcOk(w: World, p: nat)
    requires p < |w.procs|
  {
    var me := w.procs[p];
    && (IsBusy(me.pc) ==> Owns(w, p, me.key))
    && (IsOutside(me.pc) ==> !Owns(w, p, me.key))
    && (me.made.Some? ==> Owns(w, p, me.key) && me.made.value in w.payments && w.payments[me.made.value] == me.key)
    && (me.pc == Creating ==> me.made.None?)
    && (Owns(w, p, me.key) && me.answer.Some? ==> me.made == Some(me.answer.value.paymentId))
    && (me.pc in {Checking, Reserving, Creating, AfterInsert} ==> me.answer.None?)
    && (me.pc in {Completing, Completed} ==> me.answer.Some?)
    && (me.pc == Answered201 ==>
          me.answer.Some? && me.key in w.owners && w.owners[me.key] < |w.procs|
          && w.procs[w.owners[me.key]].answer == me.answer && w.procs[w.owners[me.key]].requestHash == me.requestHash)
  }

  ghost predicate Inv(w: World) {
    KeysOk(w) && RowsOk(w) && forall p | 0 <= p < |w.procs| :: ProcOk(w, p)
  }

  /** Reservations and their owners' rows and answers are never taken back. */
  ghost predicate Evolves(w: World, w': World) {
    && |w.procs| <= |w'.procs|
    && (forall key | key in w.owners :: key in w'.owners && w'.owners[key] == w.owners[key])
    && (forall id | id in w.payments :: id in w'.payments && w'.payments[id] == w.payments[id])
    && (forall p | 0 <= p < |w.procs| ::
          && w'.procs[p].key == w.procs[p].key && w'.procs[p].requestHash == w.procs[p].requestHash
          && (w.procs[p].made.Some? ==> w'.procs[p].made == w.procs[p].made)
          && (w.procs[p].answer.Some? ==> w'.procs[p].answer == w.procs[p].answer))
  }

  /** Requests other than `p` are untouched by what `p` does. */
  lemma OthersStay(w: World, w': World, p: nat)
    requires p < |w.procs| == |w'.procs| && Evolves(w, w')
    requires forall q | 0 <= q < |w.procs| && q != p :: w'.procs[q] == w.procs[q]
    requires forall key | key in w'.owners && key !in w.owners :: w'.owners[key] == p
    requires forall q | 0 <= q < |w.procs| :: ProcOk(w, q)
    ensures forall q | 0 <= q < |w.procs| && q != p :: ProcOk(w', q)
  {
    forall q | 0 <= q < |w.procs| && q != p ensures ProcOk(w', q) {
      OtherStays(w, w', p, q);
    }
  }

  /** One request moves on; reservations and rows are only added. */
  lemma MoveEvolves(w: World, w': World, p: nat, me': Proc)
    requires p < |w.procs| && w'.procs == w.procs[p := me']
    requires me'.key == w.procs[p].key && me'.requestHash == w.procs[p].requestHash
    requires w.procs[p].made.Some? ==> me'.made == w.procs[p].made
    requires w.procs[p].answer.Some? ==> me'.answer == w.procs[p].answer
    requires forall key | key in w.owners :: key in w'.owners && w'.owners[key] == w.owners[key]
    requires forall id | id in w.payments :: id in w'.payments && w'.payments[id] == w.payments[id]
    ensures Evolves(w, w')
  {
  }

  lemma OtherStays(w: World, w': World, p: nat, q: nat)
    requires p < |w.procs| == |w'.procs| && Evolves(w, w') && q < |w.procs| && q != p
    requires w'.procs[q] == w.procs[q] && ProcOk(w, q)
    requires forall key | key in w'.owners && key !in w.owners :: w'.owners[key] == p
    ensures ProcOk(w', q)
  {
    var key := w.procs[q].key;
    assert Owns(w', q, key) <==> Owns(w, q, key);
  }

  /** A move that changes only the request's own state. */
  lemma LocalMove(w: World, p: nat, me': Proc)
    requires Inv(w) && p < |w.procs| && me'.key == w.procs[p].key && me'.requestHash == w.procs[p].requestHash
    requires me'.made == w.procs[p].made && (w.procs[p].answer.Some? ==> me'.answer == w.procs[p].answer)
    requires ProcOk(Set(w, p, me'), p)
    ensures Inv(Set(w, p, me')) && Evolves(w, Set(w, p, me'))
  {
    var w' := Set(w, p, me');
    MoveEvolves(w, w', p, me');
    OthersStay(w, w', p);
    KeysFrame(w, w');
    RowsFrame(w, w');
  }

  lemma RowsFrame(w: World, w': World)
    requires RowsOk(w) && Evolves(w, w') && w'.payments == w.payments
    ensures RowsOk(w')
  {
  }

  lemma KeysFrame(w: World, w': World)
    requires KeysOk(w) && Evolves(w, w') && w'.records == w.records && w'.owners == w.owners
    ensures KeysOk(w')
  {
    forall key | key in w'.records ensures KeyOk(w', key) {
      assert KeyOk(w, key);
    }
  }

  lemma CheckMove(w: World, p: nat, fault: Fault)
    requires Inv(w) && p < |w.procs| && w.procs[p].pc == Checking
    ensures Inv(CheckStep(w, p, fault)) && Evolves(w, CheckStep(w, p, fault))
  {
    var me := w.procs[p];
    assert ProcOk(w, p);
    var me' := CheckStep(w, p, fault).procs[p];
    if me.key in w.records {
      assert KeyOk(w, me.key);
    }
    LocalMove(w, p, me');
  }

  lemma ReserveMove(w: World, p: nat, fault: Fault)
    requires Inv(w) && p < |w.procs| && w.procs[p].pc == Reserving
    ensures Inv(ReserveStep(w, p, fault)) && Evolves(w, ReserveStep(w, p, fault))
  {
    var me := w.procs[p];
    var w' := ReserveStep(w, p, fault);
    assert ProcOk(w, p);
    if fault == Before || me.key in w.records {
      LocalMove(w, p, w'.procs[p]);
    } else {
      ReservedMove(w, w', p, if fault == After then AnsweredError else Creating);
    }
  }

  lemma ReservedMove(w: World, w': World, p: nat, pc: Pc)
    requires Inv(w) && p < |w.procs| && w.procs[p].pc == Reserving && w.procs[p].key !in w.records &&
      pc in {AnsweredError, Creating}
    requires var me := w.procs[p];
      w' == Set(w.(records := w.records[me.key := Record(me.requestHash, 0, None)], owners := w.owners[me.key := p]), p, me.(pc := pc))
    ensures Inv(w') && Evolves(w, w')
  {
    assert ProcOk(w, p) && ProcOk(w', p);
    ReservedOthers(w, w', p);
    RowsFrame(w, w');
    ReservedKeys(w, w', p, w.procs[p]);
  }

  lemma ReservedOthers(w: World, w': World, p: nat)
    requires p < |w.procs| == |w'.procs| && forall q | 0 <= q < |w.procs| :: ProcOk(w, q)
    requires w'.procs == w.procs[p := w.procs[p].(pc := w'.procs[p].pc)] && w'.payments == w.payments
    requires w.procs[p].key !in w.owners && w'.owners == w.owners[w.procs[p].key := p]
    ensures Evolves(w, w') && forall q | 0 <= q < |w.procs| && q != p :: ProcOk(w', q)
  {
    MoveEvolves(w, w', p, w'.procs[p]);
    OthersStay(w, w', p);
  }

  lemma ReservedKeys(w: World, w': World, p: nat, me: Proc)
    requires p < |w.procs| == |w'.procs| && w.procs[p] == me && KeysOk(w) && me.key !in w.records && Evolves(w, w')
    requires w'.records == w.records[me.key := Record(me.requestHash, 0, None)] && w'.owners == w.owners[me.key := p]
    ensures KeysOk(w')
  {
    forall key | key in w'.records ensures KeyOk(w', key) {
      if key != me.key {
        assert KeyOk(w, key);
      }
    }
  }

  lemma CreateMove(w: World, p: nat, fault: Fault, freshId: nat)
    requires Inv(w) && p < |w.procs| && w.procs[p].pc == Creating
    ensures Inv(CreateStep(w, p, fault, freshId)) && Evolves(w, CreateStep(w, p, fault, freshId))
  {
    var w' := CreateStep(w, p, fault, freshId);
    assert ProcOk(w, p);
    if fault == Before || freshId in w.payments {
      LocalMove(w, p, w'.procs[p]);
    } else {
      CreatedMove(w, w', p, freshId, if fault == After then Failing else AfterInsert);
    }
  }

  lemma CreatedMove(w: World, w': World, p: nat, id: nat, pc: Pc)
    requires Inv(w) && p < |w.procs| && w.procs[p].pc == Creating && id !in w.payments && pc in {Failing, AfterInsert}
    requires w' == Set(w.(payments := w.payments[id := w.procs[p].key]), p, w.procs[p].(pc := pc, made := Some(id)))
    ensures Inv(w') && Evolves(w, w')
  {
    assert ProcOk(w, p) && ProcOk(w', p);
    CreatedOthers(w, w', p, id);
    KeysFrame(w, w');
    InsertedRows(w, w', p, id);
  }

  lemma CreatedOthers(w: World, w': World, p: nat, id: nat)
    requires p < |w.procs| == |w'.procs| && (forall q | 0 <= q < |w.procs| :: ProcOk(w, q)) && w.procs[p].made.None?
    requires w'.procs == w.procs[p := w.procs[p].(pc := w'.procs[p].pc, made := Some(id))] && w'.owners == w.owners
    requires id !in w.payments && w'.payments == w.payments[id := w.procs[p].key]
    ensures Evolves(w, w') && forall q | 0 <= q < |w.procs| && q != p :: ProcOk(w', q)
  {
    MoveEvolves(w, w', p, w'.procs[p]);
    OthersStay(w, w', p);
  }

  lemma InsertedRows(w: World, w': World, p: nat, id: nat)
    requires RowsOk(w) && Evolves(w, w') && p < |w'.procs| && Owns(w', p, w'.procs[p].key) && w'.procs[p].made == Some(id)
    requires id !in w.payments && w'.payments == w.payments[id := w'.procs[p].key]
    ensures RowsOk(w')
  {
  }

  lemma CompleteMove(w: World, p: nat, fault: Fault)
    requires Inv(w) && p < |w.procs| && w.procs[p].pc in {Completing, Failing}
    ensures Inv(CompleteStep(w, p, fault)) && Evolves(w, CompleteStep(w, p, fault))
  {
    var me := w.procs[p];
    var w' := CompleteStep(w, p, fault);
    assert ProcOk(w, p);
    if fault == Before {
      LocalMove(w, p, w'.procs[p]);
    } else {
      MoveEvolves(w, w', p, w'.procs[p]);
      OwnerStays(w, w', p, w'.procs[p].pc);
      OthersStay(w, w', p);
      RowsFrame(w, w');
      var ok := me.pc == Completing;
      StoredKeys(w, w', p, if ok then 201 else 0, if ok then me.answer else None);
    }
  }

  lemma OwnerStays(w: World, w': World, p: nat, pc: Pc)
    requires p < |w.procs| && ProcOk(w, p) && Owns(w, p, w.procs[p].key)
    requires w'.procs == w.procs[p := w.procs[p].(pc := pc)] && w'.payments == w.payments && w'.owners == w.owners
    requires pc in {Failing, AnsweredError} || (pc == Completed && w.procs[p].answer.Some?)
    ensures ProcOk(w', p)
  {
  }

  lemma StoredKeys(w: World, w': World, p: nat, status: nat, response: Option<Response>)
    requires p < |w.procs| == |w'.procs| && KeysOk(w) && Evolves(w, w') && w'.owners == w.owners
    requires Owns(w, p, w.procs[p].key) && w'.records == Stored(w.records, w.procs[p].key, status, response)
    requires status != 0 ==> response.Some? && response == w'.procs[p].answer
    ensures KeysOk(w')
  {
    forall key | key in w'.records ensures KeyOk(w', key) {
      assert KeyOk(w, key);
    }
  }

  lemma MoveKeeps(w: World, p: nat, fault: Fault, freshId: nat, body: string)
    requires Inv(w) && p < |w.procs|
    ensures Inv(Move(w, p, fault, freshId, body)) && Evolves(w, Move(w, p, fault, freshId, body))
  {
    assert ProcOk(w, p);
    match w.procs[p].pc
    case Checking => CheckMove(w, p, fault);
    case Reserving => ReserveMove(w, p, fault);
    case Creating => CreateMove(w, p, fault, freshId);
    case Completing => CompleteMove(w, p, fault);
    case Failing => CompleteMove(w, p, fault);
    case AfterInsert => LocalMove(w, p, Move(w, p, fault, freshId, body).procs[p]);
    case Completed => LocalMove(w, p, Move(w, p, fault, freshId, body).procs[p]);
    case _ =>
  }

  lemma BeginKeeps(w: World, key: Key, hash: string)
    requires Inv(w)
    ensures Inv(Step(w, Begin(key, hash))) && Evolves(w, Step(w, Begin(key, hash)))
  {
    var w' := Step(w, Begin(key, hash));
    forall k | k in w'.records ensures KeyOk(w', k) {
      assert KeyOk(w, k);
    }
    forall q | 0 <= q < |w'.procs| ensures ProcOk(w', q) {
      if q < |w.procs| {
        assert ProcOk(w, q);
      } else if key in w.records {
        assert KeyOk(w, key);
      }
    }
  }

  lemma StepKeeps(w: World, t: Turn)
    requires Inv(w)
    ensures Inv(Step(w, t)) && Evolves(w, Step(w, t))
  {
    match t
    case Begin(key, hash) => BeginKeeps(w, key, hash);
    case Go(p, fault, freshId, body) => if p < |w.procs| { MoveKeeps(w, p, fault, freshId, body); }
  }

  lemma {:induction false} RunKeeps(w: World, schedule: seq<Turn>)
    requires Inv(w)
    ensures Inv(Run(w, schedule)) && Evolves(w, Run(w, schedule))
    decreases |schedule|
  {
    if schedule != [] {
      StepKeeps(w, schedule[0]);
      RunKeeps(Step(w, schedule[0]), schedule[1..]);
    }
  }

  // ---------- theorems ----------

  /** However many requests race, retry, fail or crash, a key never has two payment rows. */
  lemma AtMostOnePayment(schedule: seq<Turn>, i: nat, j: nat)
    requires i in Run(INIT, schedule).payments && j in Run(INIT, schedule).payments
    requires Run(INIT, schedule).payments[i] == Run(INIT, schedule).payments[j]
    ensures i == j
  {
    RunKeeps(INIT, schedule);
  }

  /** Any two 201 answers for a key agree on the request hash and the response, and the response is that key's own payment. */
  lemma AnswersAgree(schedule: seq<Turn>, p: nat, q: nat)
    requires var w := Run(INIT, schedule);
      && p < |w.procs| && q < |w.procs| && w.procs[p].key == w.procs[q].key
      && w.procs[p].pc == Answered201 && w.procs[q].pc == Answered201
    ensures var w := Run(INIT, schedule);
      && w.procs[p].requestHash == w.procs[q].requestHash
      && w.procs[p].answer == w.procs[q].answer && w.procs[p].answer.Some?
      && w.procs[p].answer.value.paymentId in w.payments
      && w.payments[w.procs[p].answer.value.paymentId] == w.procs[p].key
  {
    RunKeeps(INIT, schedule);
    var w := Run(INIT, schedule);
    assert ProcOk(w, p) && ProcOk(w, q);
    var key := w.procs[p].key;
    assert KeyOk(w, key) && ProcOk(w, w.owners[key]);
  }

  /** The owner of this key is past the point where it could still insert a row. */
  predicate CreationOver(w: World, key: Key) {
    key in w.owners && w.owners[key] < |w.procs| && w.procs[w.owners[key]].pc !in {Creating}
  }

  /** Every row this key has afterwards it had before. */
  ghost predicate NoNewRow(w: World, w': World, key: Key) {
    forall id | id in w'.payments && w'.payments[id] == key :: id in w.payments && w.payments[id] == key
  }

  lemma {:induction false} NoLaterCreation(w: World, more: seq<Turn>, key: Key)
    requires Inv(w) && CreationOver(w, key)
    ensures NoNewRow(w, Run(w, more), key)
    decreases |more|
  {
    if more != [] {
      StepKeeps(w, more[0]);
      CreationStaysOver(w, more[0], key);
      NoLaterCreation(Step(w, more[0]), more[1..], key);
    }
  }

  lemma CreationStaysOver(w: World, t: Turn, key: Key)
    requires Inv(w) && CreationOver(w, key)
    ensures CreationOver(Step(w, t), key) && NoNewRow(w, Step(w, t), key)
  {
    var o := w.owners[key];
    assert KeyOk(w, key) && ProcOk(w, o);
    if t.Go? && t.proc < |w.procs| {
      assert ProcOk(w, t.proc);
      OnlyCreatingInserts(w, t.proc, t.fault, t.freshId, t.body);
    }
  }

  lemma OnlyCreatingInserts(w: World, p: nat, fault: Fault, freshId: nat, body: string)
    requires p < |w.procs|
    ensures var w' := Move(w, p, fault, freshId, body);
      && (w.procs[p].pc != Creating ==> w'.payments == w.payments)
      && (forall id | id in w'.payments :: id in w.payments || w'.payments[id] == w.procs[p].key)
      && (forall id | id in w.payments :: w'.payments[id] == w.payments[id])
      && (Owns(w, p, w.procs[p].key) && w.procs[p].pc !in {Creating, Reserving} ==> w'.owners == w.owners && w'.procs[p].pc != Creating)
  {
  }

  /** Once the request that reserved a key has failed, no request ever creates a payment under that key. */
  lemma FailedStaysFailed(schedule: seq<Turn>, more: seq<Turn>, p: nat)
    requires var w := Run(INIT, schedule);
      p < |w.procs| && Owns(w, p, w.procs[p].key) && w.procs[p].pc == AnsweredError
    ensures var w := Run(INIT, schedule); NoNewRow(w, Run(w, more), w.procs[p].key)
  {
    RunKeeps(INIT, schedule);
    NoLaterCreation(Run(INIT, schedule), more, Run(INIT, schedule).procs[p].key);
  }
}
