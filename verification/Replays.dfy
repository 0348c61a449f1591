/**
 * What later requests of an idempotency key are answered: a completed key is replayed, a failed one never is, whatever
 * runs and whatever fails afterwards.
 */
module Replays {
  import opened Wrappers
  import opened Idempotency

  // ---------- what is stored ----------

  /** The sentinel or a success; a success as soon as the owner has completed the key. */
  ghost predicate StatusOk(w: World, key: Key)
    requires key in w.records && key in w.owners && w.owners[key] < |w.procs|
  {
    var record, owner := w.records[key], w.procs[w.owners[key]];
    && record.responseStatus in {0, 201}
    && (record.responseStatus == 201 ==> record.response == owner.answer)
    && (owner.pc in {Completed, Answered201} ==> record.responseStatus == 201)
    && (owner.answer.None? ==> record.responseStatus == 0)
  }

  ghost predicate StatusesOk(w: World) {
    Inv(w) && forall key | key in w.records :: KeyOk(w, key) && StatusOk(w, key)
  }

  /** A turn of `p` changes no record but that of its own key, and that only to reserve it or as its owner. */
  lemma OwnRecordOnly(w: World, p: nat, fault: Fault, freshId: nat, body: string, key: Key)
    requires Inv(w) && p < |w.procs| && key in w.records && w.owners[key] != p
    ensures var w' := Move(w, p, fault, freshId, body);
      && key in w'.records && w'.records[key] == w.records[key] && key in w'.owners && w'.owners[key] == w.owners[key]
      && |w'.procs| == |w.procs| && forall q | 0 <= q < |w.procs| && q != p :: w'.procs[q] == w.procs[q]
  {
    assert ProcOk(w, p);
    match w.procs[p].pc
    case Completing => OthersRecord(w, p, fault, key);
    case Failing => OthersRecord(w, p, fault, key);
    case _ =>
  }

  lemma OthersRecord(w: World, p: nat, fault: Fault, key: Key)
    requires p < |w.procs| && key in w.records && key in w.owners && key != w.procs[p].key
    ensures var w' := CompleteStep(w, p, fault);
      && key in w'.records && w'.records[key] == w.records[key] && w'.owners == w.owners
      && |w'.procs| == |w.procs| && forall q | 0 <= q < |w.procs| && q != p :: w'.procs[q] == w.procs[q]
  {
  }

  lemma OwnerMoves(w: World, p: nat, fault: Fault, freshId: nat, body: string, key: Key)
    requires StatusesOk(w) && p < |w.procs| && key in w.records && w.owners[key] == p
    ensures var w' := Move(w, p, fault, freshId, body);
      key in w'.records && key in w'.owners && w'.owners[key] == p && p < |w'.procs| && StatusOk(w', key)
  {
    assert KeyOk(w, key) && ProcOk(w, p) && StatusOk(w, key);
    if w.procs[p].pc in {Completing, Failing} {
      CompletesOwn(w, p, fault);
    }
  }

  lemma CompletesOwn(w: World, p: nat, fault: Fault)
    requires p < |w.procs| && w.procs[p].pc in {Completing, Failing} && w.procs[p].key in w.records
    ensures var w', me, was := CompleteStep(w, p, fault), w.procs[p], w.records[w.procs[p].key];
      && w'.owners == w.owners && me.key in w'.records
      && w'.records[me.key] == (if fault == Before then was
                                else if me.pc == Completing then was.(responseStatus := 201, response := me.answer)
                                else was.(responseStatus := 0, response := None))
      && w'.procs == w.procs[p := me.(pc := if me.pc == Failing then AnsweredError else if fault == NoFault then Completed else Failing)]
  {
  }

  lemma StatusesMove(w: World, p: nat, fault: Fault, freshId: nat, body: string)
    requires StatusesOk(w) && p < |w.procs|
    ensures StatusesOk(Move(w, p, fault, freshId, body))
  {
    var w' := Move(w, p, fault, freshId, body);
    MoveKeeps(w, p, fault, freshId, body);
    forall key | key in w'.records ensures KeyOk(w', key) && StatusOk(w', key) {
      assert KeyOk(w', key);
      if key in w.records {
        assert KeyOk(w, key) && StatusOk(w, key);
        if w.owners[key] == p {
          OwnerMoves(w, p, fault, freshId, body, key);
        } else {
          OwnRecordOnly(w, p, fault, freshId, body, key);
        }
      } else {
        NewRecord(w, p, fault, freshId, body, key);
      }
    }
  }

  lemma NewRecord(w: World, p: nat, fault: Fault, freshId: nat, body: string, key: Key)
    requires Inv(w) && p < |w.procs| && key !in w.records && key in Move(w, p, fault, freshId, body).records
    ensures var w' := Move(w, p, fault, freshId, body);
      && key in w'.owners && w'.owners[key] == p < |w'.procs| && w'.records[key].responseStatus == 0
      && w'.procs[p].answer.None? && w'.procs[p].pc in {AnsweredError, Creating}
  {
    assert ProcOk(w, p);
  }

  lemma StatusesStep(w: World, t: Turn)
    requires StatusesOk(w)
    ensures StatusesOk(Step(w, t))
  {
    StepKeeps(w, t);
    if t.Go? && t.proc < |w.procs| {
      StatusesMove(w, t.proc, t.fault, t.freshId, t.body);
    } else {
      forall key | key in w.records ensures KeyOk(Step(w, t), key) && StatusOk(Step(w, t), key) {
        assert KeyOk(w, key) && StatusOk(w, key);
      }
    }
  }

  lemma {:induction false} StatusesRun(w: World, schedule: seq<Turn>)
    requires StatusesOk(w)
    ensures StatusesOk(Run(w, schedule))
    decreases |schedule|
  {
    if schedule != [] {
      StatusesStep(w, schedule[0]);
      StatusesRun(Step(w, schedule[0]), schedule[1..]);
    }
  }

  // ---------- once the owner has answered ----------

  /** The request that reserved the key has answered, with a success or an error. */
  predicate OwnerAnswered(w: World, key: Key) {
    key in w.owners && w.owners[key] < |w.procs| && w.procs[w.owners[key]].pc in {Answered201, AnsweredError}
  }

  /** The key's record and its owner are as they were. */
  predicate SameRecord(w: World, w': World, key: Key) {
    && key in w.records && key in w'.records && w'.records[key] == w.records[key]
    && key in w.owners && key in w'.owners && w'.owners[key] == w.owners[key] < |w.procs| <= |w'.procs|
    && w'.procs[w.owners[key]] == w.procs[w.owners[key]]
  }

  lemma FrozenStep(w: World, t: Turn, key: Key)
    requires Inv(w) && OwnerAnswered(w, key)
    ensures SameRecord(w, Step(w, t), key)
  {
    assert KeyOk(w, key);
    if t.Go? && t.proc < |w.procs| && t.proc != w.owners[key] {
      OwnRecordOnly(w, t.proc, t.fault, t.freshId, t.body, key);
    }
  }

  /** From the moment the owner has answered, no schedule changes the key's record. */
  lemma {:induction false} AnsweredIsFrozen(w: World, more: seq<Turn>, key: Key)
    requires Inv(w) && OwnerAnswered(w, key)
    ensures SameRecord(w, Run(w, more), key)
    decreases |more|
  {
    if more != [] {
      StepKeeps(w, more[0]);
      FrozenStep(w, more[0], key);
      AnsweredIsFrozen(Step(w, more[0]), more[1..], key);
    } else {
      assert KeyOk(w, key);
    }
  }

  /** How a request with this hash must be answered once the owner of its key has answered 201 with this response. */
  predicate Replayed(me: Proc, hash: string, answer: Option<Response>) {
    if me.requestHash == hash then me.pc == Answered201 && me.answer == answer else me.pc == AnsweredReused
  }

  lemma CheckReplays(w: World, key: Key, q: nat, freshId: nat, body: string)
    requires StatusesOk(w) && OwnerAnswered(w, key) && w.procs[w.owners[key]].pc == Answered201
    requires q < |w.procs| && w.procs[q].key == key && w.procs[q].pc == Checking
    ensures var w', owner := Step(w, Go(q, NoFault, freshId, body)), w.procs[w.owners[key]];
      q < |w'.procs| && Replayed(w'.procs[q], owner.requestHash, owner.answer)
  {
    assert KeyOk(w, key) && StatusOk(w, key);
  }

  lemma OneMoves(w: World, t: Turn, p: nat)
    requires p < |w.procs| && !(t.Go? && t.proc == p)
    ensures p < |Step(w, t).procs| && Step(w, t).procs[p] == w.procs[p]
  {
    if t.Go? && t.proc < |w.procs| && w.procs[t.proc].pc in {Completing, Failing} {
      CompletionIsOwn(w, t.proc, t.fault, p);
    }
  }

  lemma CompletionIsOwn(w: World, q: nat, fault: Fault, p: nat)
    requires p < |w.procs| && q < |w.procs| && p != q
    ensures p < |CompleteStep(w, q, fault).procs| && CompleteStep(w, q, fault).procs[p] == w.procs[p]
  {
  }

  /** A request begun from `from` on that has not checked yet, whose check failed, or that was answered as it must be. */
  predicate AnsweredAs(me: Proc, key: Key, hash: string, answer: Option<Response>) {
    me.key == key ==> me.pc in {Checking, AnsweredError} || Replayed(me, hash, answer)
  }

  predicate AllAnswered(procs: seq<Proc>, from: nat, key: Key, owner: Proc) {
    forall q | from <= q < |procs| :: AnsweredAs(procs[q], key, owner.requestHash, owner.answer)
  }

  lemma {:induction false} LaterRequests(w: World, more: seq<Turn>, key: Key, from: nat)
    requires StatusesOk(w) && OwnerAnswered(w, key) && w.procs[w.owners[key]].pc == Answered201 && from <= |w.procs|
    requires AllAnswered(w.procs, from, key, w.procs[w.owners[key]])
    ensures AllAnswered(Run(w, more).procs, from, key, w.procs[w.owners[key]])
    decreases |more|
  {
    if more != [] {
      var w1, t, o := Step(w, more[0]), more[0], w.procs[w.owners[key]];
      StatusesStep(w, t);
      FrozenStep(w, t, key);
      forall q | from <= q < |w1.procs| ensures AnsweredAs(w1.procs[q], key, o.requestHash, o.answer) {
        OneLater(w, t, key, q, from);
      }
      assert w1.procs[w1.owners[key]] == o && AllAnswered(w1.procs, from, key, o);
      LaterRequests(w1, more[1..], key, from);
      assert Run(w, more) == Run(w1, more[1..]);
    } else {
      assert Run(w, more) == w;
    }
  }

  lemma OneLater(w: World, t: Turn, key: Key, q: nat, from: nat)
    requires StatusesOk(w) && OwnerAnswered(w, key) && w.procs[w.owners[key]].pc == Answered201
    requires from <= q < |Step(w, t).procs| && from <= |w.procs|
    requires q < |w.procs| ==> AnsweredAs(w.procs[q], key, w.procs[w.owners[key]].requestHash, w.procs[w.owners[key]].answer)
    ensures AnsweredAs(Step(w, t).procs[q], key, w.procs[w.owners[key]].requestHash, w.procs[w.owners[key]].answer)
  {
    if q < |w.procs| && t.Go? && t.proc < |w.procs| {
      if t.proc == q {
        assert KeyOk(w, key) && StatusOk(w, key);
      } else {
        OneMoves(w, t, q);
      }
    }
  }

  // ---------- theorems ----------

  /**
   * Once the owner of a key has answered 201, under any schedule: a check of that key that does not fail answers that
   * very response for the same hash and `reused` for any other; every request begun later is answered so, unless its
   * check fails.
   */
  lemma CompletedIsReplayed(schedule: seq<Turn>, more: seq<Turn>, p: nat)
    requires var w := Run(INIT, schedule);
      p < |w.procs| && Owns(w, p, w.procs[p].key) && w.procs[p].pc == Answered201
    ensures var w, w' := Run(INIT, schedule), Run(Run(INIT, schedule), more);
      && w.procs[p].answer.Some?
      && (forall q, freshId, body | 0 <= q < |w'.procs| && w'.procs[q].key == w.procs[p].key && w'.procs[q].pc == Checking ::
            Replayed(Step(w', Go(q, NoFault, freshId, body)).procs[q], w.procs[p].requestHash, w.procs[p].answer))
      && (forall q | |w.procs| <= q < |w'.procs| ::
            AnsweredAs(w'.procs[q], w.procs[p].key, w.procs[p].requestHash, w.procs[p].answer))
  {
    var w, w' := Run(INIT, schedule), Run(Run(INIT, schedule), more);
    var key := w.procs[p].key;
    StatusesRun(INIT, schedule);
    StatusesRun(w, more);
    AnsweredIsFrozen(w, more, key);
    LaterRequests(w, more, key, |w.procs|);
    assert ProcOk(w, p);
    forall q, freshId, body | 0 <= q < |w'.procs| && w'.procs[q].key == key && w'.procs[q].pc == Checking
      ensures Replayed(Step(w', Go(q, NoFault, freshId, body)).procs[q], w.procs[p].requestHash, w.procs[p].answer)
    {
      CheckReplays(w', key, q, freshId, body);
    }
  }

  /**
   * Once the owner of a key has answered an error, under any schedule, no check of the key ever answers a stored response
   * if and only if its record holds the sentinel then; a success stored before the failure and not undone stays.
   */
  lemma FailedIsNeverReplayed(schedule: seq<Turn>, p: nat)
    requires var w := Run(INIT, schedule);
      p < |w.procs| && Owns(w, p, w.procs[p].key) && w.procs[p].pc == AnsweredError
    ensures var w, key := Run(INIT, schedule), Run(INIT, schedule).procs[p].key;
      && key in w.records
      && ((forall more, hash :: !Lookup(Run(w, more).records, key, hash).Cached?) <==> w.records[key].responseStatus == 0)
  {
    var w, key := Run(INIT, schedule), Run(INIT, schedule).procs[p].key;
    StatusesRun(INIT, schedule);
    assert KeyOk(w, key);
    forall more, hash
      ensures w.records[key].responseStatus == 0 ==> !Lookup(Run(w, more).records, key, hash).Cached?
    {
      AnsweredIsFrozen(w, more, key);
    }
    assert Run(w, []) == w;
    assert w.records[key].responseStatus != 0 ==> Lookup(Run(w, []).records, key, w.records[key].requestHash).Cached?;
  }
}
