/** `execute_retry` as the program runs it when nothing interferes: one method over the ledger's
    tables and the write-intent table, tied to the protocol's own steps. */
module OperatorStore {
  import opened Common
  import opened BackupResolution
  import opened CaseLedger
  import opened CaseStore
  import opened RetryProtocol
  import opened RetryOutcome

  /** The cases of the requests in a trace. */
  function Sends(trace: seq<Entry>): seq<CaseId> {
    if trace == [] then []
    else
      var e := trace[|trace| - 1];
      Sends(trace[..|trace| - 1]) + if e.CloudWrite? then [e.caseId] else []
  }

  function AsResult(c: Call): Result<(), OperatorError> {
    if c.Raised? then Err(c.error) else Ok(())
  }

  lemma FinishFailing(k: Keys, t: Tables, id: CaseId, errorClass: string, recordedAt: Time)
    ensures forall s: System :: s.t == t && 0 in s.calls && s.calls[0] == Failing(id, errorClass) ==>
              Finish(k, s, recordedAt)
              == System(FailIntent(t, id, errorClass), s.calls[0 := Raised(Failed(errorClass))], s.trace)
  {
    hide FailIntent, OnCase;
  }

  /** It is one of the protocol's runs. */
  lemma SoloIsARun(k: Keys, t: Tables, req: Request, current: Snapshot, intentAt: Time,
                   reply: Reply, startedAt: Time, recordedAt: Time)
    ensures Solo(k, t, req, current, intentAt, reply, startedAt, recordedAt)
         == Play(k, System(t, map[], []), [Begin(0, req), Review(0, current), CommitIntent(0, intentAt),
                                           Invoke(0, reply, startedAt), StoreAttempt(0, recordedAt, NoFault),
                                           MarkIntent(0, NoFault), HandleFailure(0)])
  {
    hide DoBegin, DoReview, DoCommit, DoInvoke, DoStore, DoMark, DoHandle;
    var s0 := System(t, map[], []);
    var s1 := DoBegin(s0, 0, req);
    var s2 := DoReview(k, s1, 0, current);
    var s3 := DoCommit(s2, 0, intentAt);
    var s4 := DoInvoke(k, s3, 0, reply, startedAt);
    var s5 := DoStore(k, s4, 0, recordedAt, NoFault);
    var s6 := DoMark(s5, 0, NoFault);
    PlayOne(k, s6, HandleFailure(0), []);
    PlayOne(k, s5, MarkIntent(0, NoFault), [HandleFailure(0)]);
    PlayOne(k, s4, StoreAttempt(0, recordedAt, NoFault), [MarkIntent(0, NoFault), HandleFailure(0)]);
    PlayOne(k, s3, Invoke(0, reply, startedAt),
            [StoreAttempt(0, recordedAt, NoFault), MarkIntent(0, NoFault), HandleFailure(0)]);
    PlayOne(k, s2, CommitIntent(0, intentAt),
            [Invoke(0, reply, startedAt), StoreAttempt(0, recordedAt, NoFault), MarkIntent(0, NoFault),
             HandleFailure(0)]);
    PlayOne(k, s1, Review(0, current),
            [CommitIntent(0, intentAt), Invoke(0, reply, startedAt), StoreAttempt(0, recordedAt, NoFault),
             MarkIntent(0, NoFault), HandleFailure(0)]);
    PlayOne(k, s0, Begin(0, req),
            [Review(0, current), CommitIntent(0, intentAt), Invoke(0, reply, startedAt),
             StoreAttempt(0, recordedAt, NoFault), MarkIntent(0, NoFault), HandleFailure(0)]);
  }

  class Operator {
    const store: Store
    var writes: map<CaseId, WriteRow>
    var sent: seq<CaseId>  // the cases of the backup-now requests handed to the runner

    constructor (store: Store)
      ensures this.store == store && writes == map[] && sent == []
    {
      this.store := store;
      writes, sent := map[], [];
    }

    ghost function View(): Tables
      reads this, store
    {
      Tables(store.View(), writes)
    }

    /** After the intent: the runner call, the ledger entry and the intent's verdict. */
    method Carry(k: Keys, req: Request, held: Case, current: Snapshot, reply: Reply, startedAt: Time, recordedAt: Time)
      returns (r: Result<(), OperatorError>)
      requires req.caseId in writes && held.plan.Some?
      modifies this, store
      ensures forall trace ::
                var intended := System(old(View()), map[0 := Intended(req, held, current)], trace);
                var s := Tail(k, intended, reply, startedAt, recordedAt);
                && View() == s.t && 0 in s.calls && r == AsResult(s.calls[0])
                && s.trace == if sent == old(sent) then trace else trace + [CloudWrite(req.caseId, 0)]
      ensures sent == old(sent) || sent == old(sent) + [req.caseId]
      ensures writes.Keys == old(writes).Keys
    {
      hide Propose, RetryGuard, BuildAttempt, Finish, FailIntent;
      var id := req.caseId;
      var guard := RetryGuard(k.snapshotSha, held.scope, held.plan.value, current, Approved(req));
      if guard.Err? {
        FinishFailing(k, View(), id, "BackupResolutionError", recordedAt);
        r := Fail(id, "BackupResolutionError");
        return;
      }
      sent := sent + [id];
      if reply.RunnerRaised? {
        FinishFailing(k, View(), id, reply.errorClass, recordedAt);
        r := Fail(id, reply.errorClass);
        return;
      }
      var attempt := BuildAttempt(held.scope, held.plan.value, req.approvals, startedAt, reply.response);
      r := Record(k, id, attempt, recordedAt);
    }

    /** The ledger entry and the intent's verdict. */
    method Record(k: Keys, id: CaseId, attempt: Attempt, recordedAt: Time) returns (r: Result<(), OperatorError>)
      requires id in writes
      modifies this`writes, store
      ensures forall s: System :: s.t == old(View()) && 0 in s.calls && s.calls[0] == Sent(id, attempt) ==>
                var done := Finish(k, s, recordedAt);
                View() == done.t && 0 in done.calls && r == AsResult(done.calls[0]) && done.trace == s.trace
      ensures writes.Keys == old(writes).Keys
    {
      hide OnCase, Accepted;
      var stored := store.RecordAttempt(k, id, attempt, recordedAt);
      if stored.Err? { r := Fail(id, "NetworkError"); return; }
      var verdict := if Accepted(attempt) then Recorded else Uncertain;
      writes := writes[id := writes[id].(state := verdict, attempt := Some(attempt))];
      return Ok(());
    }

    /** The exception handler. */
    method Fail(id: CaseId, errorClass: string) returns (r: Result<(), OperatorError>)
      requires id in writes
      modifies this`writes
      ensures View() == FailIntent(old(View()), id, errorClass) && r == Err(Failed(errorClass))
      ensures writes.Keys == old(writes).Keys
    {
      writes := writes[id := writes[id].(state := Uncertain, errorClass := Some(errorClass))];
      return Err(Failed(errorClass));
    }

    /** The checks and the intent. */
    method Admit(k: Keys, req: Request, current: Snapshot, intentAt: Time) returns (held: Result<Case, OperatorError>)
      modifies this`writes
      ensures var s := Front(k, old(View()), req, current, intentAt);
              && View() == s.t && 0 in s.calls
              && match held
                 case Err(e) => s.calls == map[0 := Raised(e)] && s.trace == [] && writes == old(writes)
                 case Ok(c) =>
                   && s.calls == map[0 := Intended(req, c, current)]
                        && s.trace == [IntentCommitted(req.caseId, Diagnosed)]
                   && c.plan.Some? && req.caseId !in old(writes) && req.caseId in writes
    {
      hide Propose;
      var id := req.caseId;
      if !req.causeReviewed || !req.acknowledged { return Err(ReviewRequired); }
      if !(APPROVERS <= Approved(req)) { return Err(ApprovalsMissing); }
      if id !in store.cases { return Err(NoSuchCase); }
      var c := store.cases[id];
      var review := ReviewGuard(k, c, current);
      if review.Err? { return Err(review.error); }
      if id in writes { return Err(IntentExists); }
      if store.cases[id].state != Diagnosed { return Err(StateChangedBeforeIntent); }
      writes := writes[id := WriteRow(Started, intentAt, None, None)];
      return Ok(c);
    }

    /** `reply` is what the runner will do if it is called. */
    method ExecuteRetry(k: Keys, req: Request, current: Snapshot, intentAt: Time,
                        reply: Reply, startedAt: Time, recordedAt: Time)
      returns (r: Result<(), OperatorError>)
      modifies this, store
      ensures var s := Solo(k, old(View()), req, current, intentAt, reply, startedAt, recordedAt);
              View() == s.t && 0 in s.calls && r == AsResult(s.calls[0]) && sent == old(sent) + Sends(s.trace)
      ensures sent == old(sent)
              || (sent == old(sent) + [req.caseId] && req.caseId !in old(writes) && req.caseId in writes)
      ensures Inv(k, old(store.View())) ==>
                if MayWrite(old(View()), req, current)
                then && Answered(WithIntent(old(View()), req.caseId, intentAt), View(), req.caseId, req.approvals,
                                 reply, startedAt)
                     && r == (if reply.Replied? then Ok(()) else Err(Failed(reply.errorClass)))
                     && sent == old(sent) + [req.caseId]
                else View() == old(View()) && r.Err? && sent == old(sent)
    {
      hide Front, Tail, Inv, MayWrite, Answered;
      ghost var front := Front(k, View(), req, current, intentAt);
      if Inv(k, store.View()) { SoloExactly(k, View(), req, current, intentAt, reply, startedAt, recordedAt); }
      var held := Admit(k, req, current, intentAt);
      if held.Err? {
        StopsEarly(k, front, reply, startedAt, recordedAt, held.error);
        return Err(held.error);
      }
      ghost var trace := front.trace;
      assert front == System(View(), map[0 := Intended(req, held.value, current)], trace);
      assert Sends(trace) == [] && Sends(trace + [CloudWrite(req.caseId, 0)]) == [req.caseId];
      r := Carry(k, req, held.value, current, reply, startedAt, recordedAt);
    }
  }
}
