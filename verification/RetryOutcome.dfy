/** What one undisturbed `execute_retry` leaves, told from its inputs: when it may write at all, and what
    each answer of the runner makes of the case and of its intent. */
module RetryOutcome {
  import opened Common
  import opened EventChain
  import opened BackupResolution
  import opened CaseLedger
  import opened CaseRules
  import opened RetryProtocol

  /** The protocol with one call in it, run from start to end with no other step in between. */
  function Solo(k: Keys, t: Tables, req: Request, current: Snapshot, intentAt: Time,
                reply: Reply, startedAt: Time, recordedAt: Time): System
  {
    Tail(k, Front(k, t, req, current, intentAt), reply, startedAt, recordedAt)
  }

  /** The part up to and including the intent. */
  function Front(k: Keys, t: Tables, req: Request, current: Snapshot, intentAt: Time): System {
    DoCommit(DoReview(k, DoBegin(System(t, map[], []), 0, req), 0, current), 0, intentAt)
  }

  /** The part after the intent. */
  function Tail(k: Keys, intended: System, reply: Reply, startedAt: Time, recordedAt: Time): System {
    Finish(k, DoInvoke(k, intended, 0, reply, startedAt), recordedAt)
  }

  /** The part after the runner call. */
  function Finish(k: Keys, s: System, recordedAt: Time): System {
    DoHandle(DoMark(DoStore(k, s, 0, recordedAt, NoFault), 0, NoFault), 0)
  }

  lemma PlayOne(k: Keys, s: System, a: RetryProtocol.Action, rest: seq<RetryProtocol.Action>)
    ensures Play(k, s, [a] + rest) == Play(k, Next(k, s, a), rest)
  {
    hide Next;
    assert ([a] + rest)[1..] == rest;
  }

  // ---------------------------------------------------------------- the runner's answer

  /** The request was accepted: exit code zero and a job named. */
  ghost predicate Success(r: Response) { r.returnCode == 0 && r.jobName.Some? && r.jobName.value != "" }

  /** The attempt says what the runner answered, and when it was asked. */
  ghost predicate Reports(a: Attempt, scope: Scope, approvals: seq<string>, r: Response, now: Time) {
    && a.scope == scope && a.startedAt == Some(now) && a.returnCode == r.returnCode && a.approvals == Some(approvals)
    && (a.requestStatus == "accepted" <==> r.returnCode == 0)
    && a.requestJobId == (if Success(r) then r.jobName else None)
  }

  /** From a case with an intent to what the runner's answer makes of both; nothing else changes. */
  ghost predicate Answered(s: Tables, t: Tables, id: CaseId, approvals: seq<string>, reply: Reply, now: Time) {
    && id in s.ledger.cases && id in s.writes && id in t.ledger.cases && id in t.writes
    && t.ledger.cases == s.ledger.cases[id := t.ledger.cases[id]] && t.writes == s.writes[id := t.writes[id]]
    && var c, d, w := s.ledger.cases[id], t.ledger.cases[id], t.writes[id];
    && w.startedAt == s.writes[id].startedAt
    && match reply
       case RunnerRaised(e) =>
         && t.ledger == s.ledger && w == s.writes[id].(state := Uncertain, errorClass := Some(e))
       case Replied(r) =>
         && d.attempt.Some? && w.attempt == d.attempt && Reports(d.attempt.value, c.scope, approvals, r, now)
         && d == c.(attempt := d.attempt, state := d.state)
         && (d.state == AwaitingResult <==> Success(r)) && (d.state == NeedsReview <==> !Success(r))
         && (w.state == Recorded <==> Success(r)) && (w.state == Uncertain <==> !Success(r))
  }

  lemma BuiltReports(scope: Scope, plan: Plan, approvals: seq<string>, now: Time, r: Response)
    ensures Reports(BuildAttempt(scope, plan, approvals, now, r), scope, approvals, r, now)
    ensures NamedJob(BuildAttempt(scope, plan, approvals, now, r)) <==> Success(r)
  {}

  lemma RecordsBuilt(k: Keys, t: Tables, id: CaseId, a: Attempt, at: Time)
    requires id in t.ledger.cases && id in t.writes && t.ledger.cases[id].state == Diagnosed
    requires t.ledger.cases[id].plan.Some?
    requires AttemptGuard(t.ledger.cases[id].scope, t.ledger.cases[id].plan.value, a).Ok?
    ensures var r := OnCase(k, t.ledger, id, AttemptOp(a, at));
            && r.Ok?
            && var u := UpdateIntent(t.(ledger := r.value), id, a);
               var c := t.ledger.cases[id];
               && u.writes == t.writes[id := t.writes[id].(state := if NamedJob(a) then Recorded else Uncertain,
                                                           attempt := Some(a))]
               && u.ledger.cases == t.ledger.cases[id := c.(state := if NamedJob(a) then AwaitingResult
                                                                     else NeedsReview, attempt := Some(a))]
  {
    hide AttemptGuard, RowsOf, Link, FinalHash;
  }

  /** A call that holds the intent of a diagnosed case. */
  ghost predicate Ready(k: Keys, s: System, p: CallId) {
    && p in s.calls && s.calls[p].Intended? && CallOk(k, s.t.ledger, s.calls[p])
    && s.calls[p].req.caseId in s.t.writes && s.t.ledger.cases[s.calls[p].req.caseId].state == Diagnosed
  }

  /** Played to its end with no other step in between. */
  function Ended(k: Keys, s: System, p: CallId, reply: Reply, now: Time, at: Time): System {
    DoHandle(DoMark(DoStore(k, DoInvoke(k, s, p, reply, now), p, at, NoFault), p, NoFault), p)
  }

  lemma SendsBuilt(k: Keys, s: System, p: CallId, r: Response, now: Time)
    requires Ready(k, s, p)
    ensures var c := s.calls[p]; var id := c.req.caseId;
            && c.held.plan.Some?
            && var a := BuildAttempt(c.held.scope, c.held.plan.value, c.req.approvals, now, r);
            && DoInvoke(k, s, p, Replied(r), now)
               == System(s.t, s.calls[p := Sent(id, a)], s.trace + [CloudWrite(id, p)])
            && s.t.ledger.cases[id].plan.Some? && s.t.ledger.cases[id].scope == c.held.scope
            && AttemptGuard(s.t.ledger.cases[id].scope, s.t.ledger.cases[id].plan.value, a).Ok?
  {
    var c := s.calls[p];
    BuiltIsRecordable(k, s.t.ledger, c, now, r);
    hide BuildAttempt, RetryGuard, AttemptGuard, RequestGuard;
  }

  lemma StoresAndMarks(k: Keys, s: System, p: CallId, id: CaseId, a: Attempt, at: Time)
    requires p in s.calls && s.calls[p] == Sent(id, a) && OnCase(k, s.t.ledger, id, AttemptOp(a, at)).Ok?
    ensures var l := OnCase(k, s.t.ledger, id, AttemptOp(a, at)).value;
            DoHandle(DoMark(DoStore(k, s, p, at, NoFault), p, NoFault), p)
            == System(UpdateIntent(s.t.(ledger := l), id, a), s.calls[p := Returned], s.trace)
  {
    hide OnCase, UpdateIntent;
  }

  lemma EndsAnswered(k: Keys, s: System, p: CallId, r: Response, now: Time, at: Time)
    requires Ready(k, s, p)
    ensures var t := Ended(k, s, p, Replied(r), now, at); var c := s.calls[p];
            && Answered(s.t, t.t, c.req.caseId, c.req.approvals, Replied(r), now)
            && t.calls == s.calls[p := Returned] && t.trace == s.trace + [CloudWrite(c.req.caseId, p)]
  {
    SendsBuilt(k, s, p, r, now);
    hide DoInvoke, DoStore, DoMark, DoHandle, BuildAttempt, OnCase, UpdateIntent, AttemptGuard, Reports, NamedJob,
        Success, CallOk;
    var c := s.calls[p];
    var id := c.req.caseId;
    var a := BuildAttempt(c.held.scope, c.held.plan.value, c.req.approvals, now, r);
    BuiltReports(c.held.scope, c.held.plan.value, c.req.approvals, now, r);
    RecordsBuilt(k, s.t, id, a, at);
    StoresAndMarks(k, DoInvoke(k, s, p, Replied(r), now), p, id, a, at);
    hide Answered;
    var l := OnCase(k, s.t.ledger, id, AttemptOp(a, at)).value;
    RecordedIsAnswered(s.t, UpdateIntent(s.t.(ledger := l), id, a), id, a, c.req.approvals, r, now);
  }

  lemma RecordedIsAnswered(s: Tables, t: Tables, id: CaseId, a: Attempt, approvals: seq<string>, r: Response, now: Time)
    requires id in s.ledger.cases && id in s.writes && Reports(a, s.ledger.cases[id].scope, approvals, r, now)
    requires NamedJob(a) <==> Success(r)
    requires t.writes == s.writes[id := s.writes[id].(state := if NamedJob(a) then Recorded else Uncertain,
                                                      attempt := Some(a))]
    requires t.ledger.cases == s.ledger.cases[id := s.ledger.cases[id].(state := if NamedJob(a) then AwaitingResult
                                                                                 else NeedsReview, attempt := Some(a))]
    ensures Answered(s, t, id, approvals, Replied(r), now)
  {
    hide Reports, NamedJob, Success;
  }

  lemma EndsRaised(k: Keys, s: System, p: CallId, e: string, now: Time, at: Time)
    requires Ready(k, s, p)
    ensures var t := Ended(k, s, p, RunnerRaised(e), now, at); var c := s.calls[p];
            && Answered(s.t, t.t, c.req.caseId, c.req.approvals, RunnerRaised(e), now)
            && t.calls == s.calls[p := Raised(Failed(e))] && t.trace == s.trace + [CloudWrite(c.req.caseId, p)]
  {
    hide RetryGuard, OnCase, BuildAttempt, AttemptGuard;
  }

  lemma EndsAs(k: Keys, s: System, p: CallId, reply: Reply, now: Time, at: Time)
    requires Ready(k, s, p)
    ensures var t := Ended(k, s, p, reply, now, at); var c := s.calls[p];
            && Answered(s.t, t.t, c.req.caseId, c.req.approvals, reply, now)
            && t.calls == s.calls[p := if reply.Replied? then Returned else Raised(Failed(reply.errorClass))]
            && t.trace == s.trace + [CloudWrite(c.req.caseId, p)]
  {
    hide Ready, Ended, Answered;
    match reply
    case Replied(r) => EndsAnswered(k, s, p, r, now, at);
    case RunnerRaised(e) => EndsRaised(k, s, p, e, now, at);
  }

  /** The steps that take it there. */
  function Rest(p: CallId, reply: Reply, now: Time, at: Time): seq<RetryProtocol.Action> {
    [Invoke(p, reply, now), StoreAttempt(p, at, NoFault), MarkIntent(p, NoFault), HandleFailure(p)]
  }

  lemma RestEnds(k: Keys, s: System, p: CallId, reply: Reply, now: Time, at: Time)
    ensures Play(k, s, Rest(p, reply, now, at)) == Ended(k, s, p, reply, now, at)
  {
    hide DoInvoke, DoStore, DoMark, DoHandle;
    var s1 := DoInvoke(k, s, p, reply, now);
    var s2 := DoStore(k, s1, p, at, NoFault);
    var s3 := DoMark(s2, p, NoFault);
    assert Rest(p, reply, now, at)
        == [Invoke(p, reply, now)] + ([StoreAttempt(p, at, NoFault)] + ([MarkIntent(p, NoFault)]
           + ([HandleFailure(p)] + [])));
    PlayOne(k, s3, HandleFailure(p), []);
    PlayOne(k, s2, MarkIntent(p, NoFault), [HandleFailure(p)] + []);
    PlayOne(k, s1, StoreAttempt(p, at, NoFault), [MarkIntent(p, NoFault)] + ([HandleFailure(p)] + []));
    PlayOne(k, s, Invoke(p, reply, now),
            [StoreAttempt(p, at, NoFault)] + ([MarkIntent(p, NoFault)] + ([HandleFailure(p)] + [])));
  }

  /** Main result: in any run, a call that holds the intent of a diagnosed case and goes on undisturbed makes
      the request, and what the runner answers decides the rest. The case awaits a result and the intent is
      recorded if and only if the exit code is zero and a job is named; that job and the time of the call
      are then what the case waits for. Otherwise the case goes to review and the intent is uncertain; and
      if the runner raises, the case stays as it was beside an uncertain intent. */
  lemma RunnerAnswerDecides(k: Keys, before: seq<RetryProtocol.Action>, p: CallId, reply: Reply, now: Time, at: Time)
    requires var s := Play(k, START, before);
             && p in s.calls && s.calls[p].Intended? && s.calls[p].req.caseId in s.t.ledger.cases
             && s.t.ledger.cases[s.calls[p].req.caseId].state == Diagnosed
    ensures var s := Play(k, START, before); var req := s.calls[p].req;
            var t := Play(k, s, Rest(p, reply, now, at));
            && Answered(s.t, t.t, req.caseId, req.approvals, reply, now)
            && t.calls == s.calls[p := if reply.Replied? then Returned else Raised(Failed(reply.errorClass))]
            && t.trace == s.trace + [CloudWrite(req.caseId, p)]
  {
    var s := Play(k, START, before);
    ReachableSystem(k, before);
    hide Play, SystemInv, Ended, Rest, Answered, RowOk;
    CallFacts(k, s, p);
    assert Owns(s.calls[p], s.calls[p].req.caseId);
    RestEnds(k, s, p, reply, now, at);
    EndsAs(k, s, p, reply, now, at);
  }

  // ---------------------------------------------------------------- who may write

  /** Reviewed, acknowledged and approved by both. */
  ghost predicate Consented(req: Request) {
    && req.causeReviewed && req.acknowledged
    && "workload-owner" in req.approvals && "backup-operator" in req.approvals
  }

  /** The evidence still is what the case was diagnosed on. */
  ghost predicate Unchanged(c: Case, current: Snapshot) {
    && c.state == Diagnosed && c.snapshot.Some? && current.scope == c.scope && current.accountVerified
    && SameFailure(c.snapshot.value, current)
  }

  /** For a diagnosed case without an intent, whose latest backup job still is the failed one. */
  ghost predicate MayWrite(t: Tables, req: Request, current: Snapshot) {
    && Consented(req) && req.caseId in t.ledger.cases && req.caseId !in t.writes
    && Unchanged(t.ledger.cases[req.caseId], current)
  }

  ghost predicate SameFailure(first: Snapshot, current: Snapshot) {
    exists job :: LatestFailed(first, job) && LatestFailed(current, job)
  }

  lemma SameJob(sha: Snapshot -> Digest, first: Snapshot, current: Snapshot)
    ensures SameFailure(first, current) <==>
              && Propose(sha, first).action == BackupNowCandidate && Propose(sha, current).action == BackupNowCandidate
              && Propose(sha, first).failedJobId == Propose(sha, current).failedJobId
    ensures SameFailure(first, current) ==> Propose(sha, first).action == BackupNowCandidate
  {
    ProposesExactly(sha, first);
    ProposesExactly(sha, current);
    hide Propose, LatestFailed;
  }

  /** The review checks, told from the stored evidence. */
  lemma ReviewExactly(k: Keys, l: Ledger, id: CaseId, current: Snapshot)
    requires Inv(k, l) && id in l.cases
    ensures var c := l.cases[id]; var r := ReviewGuard(k, c, current);
            && (r == Err(NotAwaitingReviewedRetry) <==> c.state != Diagnosed)
            && (r == Err(FreshNotVerified) <==>
                  c.state == Diagnosed && !(current.scope == c.scope && current.accountVerified))
            && (r.Ok? <==>
                  && c.state == Diagnosed && c.snapshot.Some? && current.scope == c.scope && current.accountVerified
                  && SameFailure(c.snapshot.value, current))
            && (r.Ok? || r.error == NotAwaitingReviewedRetry || r.error == FreshNotVerified
                || r.error == ConditionChanged)
  {
    var c := l.cases[id];
    hide Inv, History, LatestFailed, SameFailure, Propose, Consistent, Chained, BackupProven;
    CaseIsOk(k, l, id);
    EvidenceOf(k, c, History(l, id));
    if c.snapshot.Some? { SameJob(k.snapshotSha, c.snapshot.value, current); }
  }

  lemma RequestExactly(req: Request)
    ensures RequestGuard(req) == Err(ReviewRequired) <==> !(req.causeReviewed && req.acknowledged)
    ensures RequestGuard(req) == Err(ApprovalsMissing) <==>
              && req.causeReviewed && req.acknowledged
              && !("workload-owner" in req.approvals && "backup-operator" in req.approvals)
    ensures RequestGuard(req).Ok? || RequestGuard(req).error == ReviewRequired
            || RequestGuard(req).error == ApprovalsMissing
  {
    var given := Approved(req);
    assert APPROVERS <= given <==> "workload-owner" in given && "backup-operator" in given;
  }

  /** The first three steps as one decision. */
  lemma FrontUnfolds(k: Keys, t: Tables, req: Request, current: Snapshot, intentAt: Time)
    ensures var s := Front(k, t, req, current, intentAt); var id := req.caseId;
            if RequestGuard(req).Err? then s == System(t, map[0 := Raised(RequestGuard(req).error)], [])
            else if id !in t.ledger.cases then s == System(t, map[0 := Raised(NoSuchCase)], [])
            else if ReviewGuard(k, t.ledger.cases[id], current).Err?
            then s == System(t, map[0 := Raised(ReviewGuard(k, t.ledger.cases[id], current).error)], [])
            else match InsertIntent(t, id, intentAt)
                 case Err(e) => s == System(t, map[0 := Raised(e)], [])
                 case Ok(u) => s == System(u, map[0 := Intended(req, t.ledger.cases[id], current)],
                                           [IntentCommitted(id, t.ledger.cases[id].state)])
  {
    hide RequestGuard, ReviewGuard;
  }

  function Admitted(t: Tables, req: Request, current: Snapshot, intentAt: Time): System
    requires req.caseId in t.ledger.cases
  {
    System(WithIntent(t, req.caseId, intentAt), map[0 := Intended(req, t.ledger.cases[req.caseId], current)],
           [IntentCommitted(req.caseId, Diagnosed)])
  }

  /** An undisturbed call commits an intent exactly when it may write; else it is refused, for the first
      of its reasons, and leaves everything as it was. */
  lemma FrontExactly(k: Keys, t: Tables, req: Request, current: Snapshot, intentAt: Time)
    requires Inv(k, t.ledger)
    ensures var s := Front(k, t, req, current, intentAt);
            if MayWrite(t, req, current) then s == Admitted(t, req, current, intentAt)
            else s.t == t && s.trace == [] && s.calls.Keys == {0} && s.calls[0].Raised?
    ensures var s := Front(k, t, req, current, intentAt); var known := req.caseId in t.ledger.cases;
            && 0 in s.calls
            && (s.calls[0] == Raised(ReviewRequired) <==> !(req.causeReviewed && req.acknowledged))
            && (s.calls[0] == Raised(ApprovalsMissing) <==>
                  req.causeReviewed && req.acknowledged && !Consented(req))
            && (s.calls[0] == Raised(NoSuchCase) <==> Consented(req) && !known)
            && (Consented(req) && known ==>
                  var c := t.ledger.cases[req.caseId];
                  && (s.calls[0] == Raised(NotAwaitingReviewedRetry) <==> c.state != Diagnosed)
                  && (s.calls[0] == Raised(FreshNotVerified) <==>
                        c.state == Diagnosed && !(current.scope == c.scope && current.accountVerified))
                  && (s.calls[0] == Raised(IntentExists) <==> Unchanged(c, current) && req.caseId in t.writes))
  {
    RequestExactly(req);
    FrontUnfolds(k, t, req, current, intentAt);
    hide RequestGuard, ReviewGuard, SameFailure, Inv, Front;
    if req.caseId in t.ledger.cases { ReviewExactly(k, t.ledger, req.caseId, current); }
  }

  /** What an undisturbed call leaves, from its inputs alone. */
  lemma SoloExactly(k: Keys, t: Tables, req: Request, current: Snapshot, intentAt: Time,
                    reply: Reply, startedAt: Time, recordedAt: Time)
    requires Inv(k, t.ledger)
    ensures var s := Solo(k, t, req, current, intentAt, reply, startedAt, recordedAt);
            && 0 in s.calls
            && (!MayWrite(t, req, current) ==> s.t == t && s.trace == [] && s.calls[0].Raised?)
            && (MayWrite(t, req, current) ==>
                  && Answered(WithIntent(t, req.caseId, intentAt), s.t, req.caseId, req.approvals, reply, startedAt)
                  && s.calls[0] == (if reply.Replied? then Returned else Raised(Failed(reply.errorClass)))
                  && s.trace == [IntentCommitted(req.caseId, Diagnosed), CloudWrite(req.caseId, 0)])
  {
    hide MayWrite, Front, Tail, Answered, Inv, WithIntent;
    FrontExactly(k, t, req, current, intentAt);
    var s := Front(k, t, req, current, intentAt);
    if MayWrite(t, req, current) {
      AdmittedEnds(k, t, req, current, intentAt, reply, startedAt, recordedAt);
    } else {
      assert s.calls == map[0 := Raised(s.calls[0].error)];
      StopsEarly(k, s, reply, startedAt, recordedAt, s.calls[0].error);
    }
  }

  lemma AdmittedIsReady(k: Keys, t: Tables, req: Request, current: Snapshot, intentAt: Time)
    requires Inv(k, t.ledger) && MayWrite(t, req, current)
    ensures Ready(k, Admitted(t, req, current, intentAt), 0)
  {
    hide CallOk, SameFailure, Inv;
    ReviewIsHeld(k, t, req, current);
  }

  lemma AdmittedEnds(k: Keys, t: Tables, req: Request, current: Snapshot, intentAt: Time,
                     reply: Reply, startedAt: Time, recordedAt: Time)
    requires Inv(k, t.ledger) && MayWrite(t, req, current)
    ensures req.caseId in t.ledger.cases
    ensures var s := Tail(k, Admitted(t, req, current, intentAt), reply, startedAt, recordedAt);
            && Answered(WithIntent(t, req.caseId, intentAt), s.t, req.caseId, req.approvals, reply, startedAt)
            && s.calls == map[0 := if reply.Replied? then Returned else Raised(Failed(reply.errorClass))]
            && s.trace == [IntentCommitted(req.caseId, Diagnosed), CloudWrite(req.caseId, 0)]
  {
    hide Ready, Ended, Tail, Answered, Inv, WithIntent;
    AdmittedIsReady(k, t, req, current, intentAt);
    hide MayWrite;
    TailIsEnded(k, Admitted(t, req, current, intentAt), reply, startedAt, recordedAt);
    EndsAs(k, Admitted(t, req, current, intentAt), 0, reply, startedAt, recordedAt);
  }

  lemma TailIsEnded(k: Keys, s: System, reply: Reply, startedAt: Time, recordedAt: Time)
    ensures Tail(k, s, reply, startedAt, recordedAt) == Ended(k, s, 0, reply, startedAt, recordedAt)
  {
    hide DoInvoke, DoStore, DoMark, DoHandle;
  }

  function WithIntent(t: Tables, id: CaseId, at: Time): Tables {
    t.(writes := t.writes[id := WriteRow(Started, at, None, None)])
  }

  lemma ReviewIsHeld(k: Keys, t: Tables, req: Request, current: Snapshot)
    requires Inv(k, t.ledger) && MayWrite(t, req, current)
    ensures CallOk(k, t.ledger, Intended(req, t.ledger.cases[req.caseId], current))
  {
    ReviewExactly(k, t.ledger, req.caseId, current);
    var given := Approved(req);
    assert APPROVERS <= given <==> "workload-owner" in given && "backup-operator" in given;
    hide Inv, SameFailure, HeldOk, ReviewGuard;
    ReviewedOk(k, t.ledger, req, current);
  }

  /** A call that was refused goes no further. */
  lemma StopsEarly(k: Keys, s: System, reply: Reply, startedAt: Time, recordedAt: Time, e: OperatorError)
    requires s.calls == map[0 := Raised(e)]
    ensures Tail(k, s, reply, startedAt, recordedAt) == s
  {
    hide OnCase, RetryGuard, BuildAttempt;
  }
}
