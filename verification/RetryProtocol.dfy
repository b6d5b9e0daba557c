/** The one cloud write of a case. Any number of `execute_retry` calls run at once, each a sequence of
    separate transactions around one runner call; any of them can stop for ever between two steps,
    the runner can time out after the request left, a transaction can fail, and other operators work
    on the same ledger all the while. */
module RetryProtocol {
  import opened Common
  import opened EventChain
  import opened BackupResolution
  import opened CaseLedger

  type CallId = nat

  datatype WriteState = Started | Recorded | Uncertain

  /** A row of operator_writes. */
  datatype WriteRow = WriteRow(state: WriteState, startedAt: Time, attempt: Option<Attempt>, errorClass: Option<string>)

  datatype Tables = Tables(ledger: Ledger, writes: map<CaseId, WriteRow>)

  /** `approvals` lists the approval set in the order `sorted` gives it. */
  datatype Request = Request(caseId: CaseId, approvals: seq<string>, causeReviewed: bool, acknowledged: bool)

  function Approved(req: Request): set<string> { set r | r in req.approvals }

  datatype OperatorError =
    | ReviewRequired | ApprovalsMissing | NoSuchCase | NotAwaitingReviewedRetry | FreshNotVerified
    | ConditionChanged | IntentExists | StateChangedBeforeIntent | Failed(errorClass: string)

  datatype Call =
    | Reading(req: Request)
    | Reviewed(req: Request, held: Case, current: Snapshot)
    | Intended(req: Request, held: Case, current: Snapshot)
    | Sent(caseId: CaseId, attempt: Attempt)
    | AttemptStored(caseId: CaseId, attempt: Attempt)
    | Failing(caseId: CaseId, errorClass: string)
    | Returned
    | Raised(error: OperatorError)
    | Dead

  /** History kept for the statements below: intents as they commit, cloud writes as they leave. */
  datatype Entry = IntentCommitted(caseId: CaseId, seen: CaseState) | CloudWrite(caseId: CaseId, call: CallId)

  datatype System = System(t: Tables, calls: map<CallId, Call>, trace: seq<Entry>)

  /** What the runner did: returned, or raised after the request may have left. */
  datatype Reply = Replied(response: Response) | RunnerRaised(errorClass: string)

  /** An exception before a transaction commits, or after it has: reading the case back may fail too. */
  datatype Fault = NoFault | BeforeCommit(errorClass: string) | AfterCommit(errorClass: string)

  datatype Action =
    | Begin(call: CallId, req: Request)
    | Review(call: CallId, current: Snapshot)
    | CommitIntent(call: CallId, now: Time)
    | Invoke(call: CallId, reply: Reply, now: Time)
    | StoreAttempt(call: CallId, now: Time, fault: Fault)
    | MarkIntent(call: CallId, fault: Fault)
    | HandleFailure(call: CallId)
    | Crash(call: CallId)
    | Other(op: Op)

  // ---------------------------------------------------------------- the steps on the tables

  function RequestGuard(req: Request): Result<(), OperatorError> {
    if !req.causeReviewed || !req.acknowledged then Err(ReviewRequired)
    else if !(APPROVERS <= Approved(req)) then Err(ApprovalsMissing)
    else Ok(())
  }

  /** The checks on the case as read and on freshly collected evidence. */
  function ReviewGuard(k: Keys, c: Case, current: Snapshot): Result<(), OperatorError> {
    if c.state != Diagnosed || c.plan.None? || c.plan.value.action != BackupNowCandidate
    then Err(NotAwaitingReviewedRetry)
    else if current.scope != c.scope || !current.accountVerified then Err(FreshNotVerified)
    else
      var again := Propose(k.snapshotSha, current);
      if again.action != BackupNowCandidate || again.failedJobId != c.plan.value.failedJobId then Err(ConditionChanged)
      else Ok(())
  }

  function InsertIntent(t: Tables, id: CaseId, now: Time): Result<Tables, OperatorError> {
    if id in t.writes then Err(IntentExists)
    else if id !in t.ledger.cases || t.ledger.cases[id].state != Diagnosed then Err(StateChangedBeforeIntent)
    else Ok(t.(writes := t.writes[id := WriteRow(Started, now, None, None)]))
  }

  function UpdateIntent(t: Tables, id: CaseId, a: Attempt): Tables {
    if id !in t.writes then t
    else
      var verdict := if Accepted(a) then Recorded else Uncertain;
      t.(writes := t.writes[id := t.writes[id].(state := verdict, attempt := Some(a))])
  }

  function FailIntent(t: Tables, id: CaseId, errorClass: string): Tables {
    if id !in t.writes then t
    else t.(writes := t.writes[id := t.writes[id].(state := Uncertain, errorClass := Some(errorClass))])
  }

  function Continue(s: System, call: CallId, next: Call): System { s.(calls := s.calls[call := next]) }

  // Each step below changes nothing when its call is not at that point.

  function DoBegin(s: System, p: CallId, req: Request): System {
    if p in s.calls then s
    else Continue(s, p, match RequestGuard(req) case Ok(_) => Reading(req) case Err(e) => Raised(e))
  }

  function DoReview(k: Keys, s: System, p: CallId, current: Snapshot): System {
    if p !in s.calls || !s.calls[p].Reading? then s
    else
      var req := s.calls[p].req;
      if req.caseId !in s.t.ledger.cases then Continue(s, p, Raised(NoSuchCase))
      else
        var held := s.t.ledger.cases[req.caseId];
        var next := match ReviewGuard(k, held, current)
                    case Ok(_) => Reviewed(req, held, current)
                    case Err(e) => Raised(e);
        Continue(s, p, next)
  }

  function DoCommit(s: System, p: CallId, now: Time): System {
    if p !in s.calls || !s.calls[p].Reviewed? then s
    else
      var c := s.calls[p];
      match InsertIntent(s.t, c.req.caseId, now)
      case Err(e) => Continue(s, p, Raised(e))
      case Ok(t) => System(t, s.calls[p := Intended(c.req, c.held, c.current)],
                           s.trace + [IntentCommitted(c.req.caseId, s.t.ledger.cases[c.req.caseId].state)])
  }

  function DoInvoke(k: Keys, s: System, p: CallId, reply: Reply, now: Time): System {
    if p !in s.calls || !s.calls[p].Intended? || s.calls[p].held.plan.None? then s
    else
      var c := s.calls[p];
      var id, plan := c.req.caseId, c.held.plan.value;
      match RetryGuard(k.snapshotSha, c.held.scope, plan, c.current, Approved(c.req))
      case Err(e) => Continue(s, p, Failing(id, "BackupResolutionError"))
      case Ok(_) =>
        var after := match reply
          case Replied(r) => Sent(id, BuildAttempt(c.held.scope, plan, c.req.approvals, now, r))
          case RunnerRaised(e) => Failing(id, e);
        System(s.t, s.calls[p := after], s.trace + [CloudWrite(id, p)])
  }

  function DoStore(k: Keys, s: System, p: CallId, now: Time, fault: Fault): System {
    if p !in s.calls || !s.calls[p].Sent? then s
    else
      var id, attempt := s.calls[p].caseId, s.calls[p].attempt;
      if fault.BeforeCommit? then Continue(s, p, Failing(id, fault.errorClass))
      else
        match OnCase(k, s.t.ledger, id, AttemptOp(attempt, now))
        case Err(_) => Continue(s, p, Failing(id, "NetworkError"))
        case Ok(l) =>
          var next := if fault.AfterCommit? then Failing(id, fault.errorClass) else AttemptStored(id, attempt);
          Continue(s.(t := s.t.(ledger := l)), p, next)
  }

  function DoMark(s: System, p: CallId, fault: Fault): System {
    if p !in s.calls || !s.calls[p].AttemptStored? then s
    else
      var id, attempt := s.calls[p].caseId, s.calls[p].attempt;
      if fault.BeforeCommit? then Continue(s, p, Failing(id, fault.errorClass))
      else
        var next := if fault.AfterCommit? then Failing(id, fault.errorClass) else Returned;
        Continue(s.(t := UpdateIntent(s.t, id, attempt)), p, next)
  }

  function DoHandle(s: System, p: CallId): System {
    if p !in s.calls || !s.calls[p].Failing? then s
    else
      var id, e := s.calls[p].caseId, s.calls[p].errorClass;
      Continue(s.(t := FailIntent(s.t, id, e)), p, Raised(Failed(e)))
  }

  ghost function Next(k: Keys, s: System, a: Action): System {
    match a
    case Begin(p, req) => DoBegin(s, p, req)
    case Review(p, current) => DoReview(k, s, p, current)
    case CommitIntent(p, now) => DoCommit(s, p, now)
    case Invoke(p, reply, now) => DoInvoke(k, s, p, reply, now)
    case StoreAttempt(p, now, fault) => DoStore(k, s, p, now, fault)
    case MarkIntent(p, fault) => DoMark(s, p, fault)
    case HandleFailure(p) => DoHandle(s, p)
    case Crash(p) => if p in s.calls then Continue(s, p, Dead) else s
    case Other(op) => s.(t := s.t.(ledger := Step(k, s.t.ledger, op)))
  }

  const START: System := System(Tables(EMPTY, map[]), map[], [])

  ghost function Play(k: Keys, s: System, actions: seq<Action>): System
    decreases |actions|
  {
    if actions == [] then s else Play(k, Next(k, s, actions[0]), actions[1..])
  }

  // ---------------------------------------------------------------- the invariant

  /** Past its intent and not yet finished: the call that owns the case's write. */
  predicate Owns(c: Call, id: CaseId) {
    match c
    case Intended(req, _, _) => req.caseId == id
    case Sent(i, _) => i == id
    case AttemptStored(i, _) => i == id
    case Failing(i, _) => i == id
    case _ => false
  }

  /** What a call remembers still agrees with the ledger. */
  ghost predicate HeldOk(k: Keys, l: Ledger, req: Request, held: Case, current: Snapshot) {
    && req.caseId in l.cases
    && var c := l.cases[req.caseId];
    && c.state != Received && held.plan.Some? && c.plan == held.plan && c.scope == held.scope
    && RetryGuard(k.snapshotSha, held.scope, held.plan.value, current, Approved(req)).Ok?
  }

  ghost predicate CallOk(k: Keys, l: Ledger, c: Call) {
    match c
    case Reading(req) => RequestGuard(req).Ok?
    case Reviewed(req, held, current) => RequestGuard(req).Ok? && HeldOk(k, l, req, held, current)
    case Intended(req, held, current) => RequestGuard(req).Ok? && HeldOk(k, l, req, held, current)
    case Sent(id, a) =>
      id in l.cases && l.cases[id].state != Received && l.cases[id].plan.Some?
      && AttemptGuard(l.cases[id].scope, l.cases[id].plan.value, a).Ok?
    case AttemptStored(id, a) => id in l.cases && l.cases[id].attempt == Some(a)
    case _ => true
  }

  ghost predicate IntentBefore(trace: seq<Entry>, n: int, id: CaseId) {
    exists i :: 0 <= i < n <= |trace| && trace[i] == IntentCommitted(id, Diagnosed)
  }

  ghost predicate Written(trace: seq<Entry>, id: CaseId) {
    exists i :: 0 <= i < |trace| && trace[i].CloudWrite? && trace[i].caseId == id
  }

  /** Every cloud write follows an intent committed while the case was diagnosed, and no two are for
      the same case. */
  ghost predicate TraceOk(trace: seq<Entry>) {
    forall j :: 0 <= j < |trace| && trace[j].CloudWrite? ==>
      && IntentBefore(trace, j, trace[j].caseId)
      && forall i :: 0 <= i < j && trace[i].CloudWrite? ==> trace[i].caseId != trace[j].caseId
  }

  /** The writes table is the set of committed intents, and at most one call owns each. */
  ghost predicate OwnersOk(s: System) {
    && (forall id :: id in s.t.writes <==> IntentBefore(s.trace, |s.trace|, id))
    && (forall p, id :: p in s.calls && Owns(s.calls[p], id) ==> id in s.t.writes)
    && (forall p, q, id :: p in s.calls && q in s.calls && Owns(s.calls[p], id) && Owns(s.calls[q], id) ==> p == q)
    && (forall p :: p in s.calls && s.calls[p].Intended? ==> !Written(s.trace, s.calls[p].req.caseId))
  }

  /** A recorded intent holds the attempt the case holds, and that attempt was accepted. */
  ghost predicate RowOk(l: Ledger, id: CaseId, w: WriteRow) {
    id in l.cases
    && (w.state == Recorded ==> w.attempt.Some? && Accepted(w.attempt.value) && l.cases[id].attempt == w.attempt)
  }

  ghost predicate SystemInv(k: Keys, s: System) {
    && Inv(k, s.t.ledger)
    && (forall p :: p in s.calls ==> CallOk(k, s.t.ledger, s.calls[p]))
    && (forall id :: id in s.t.writes ==> RowOk(s.t.ledger, id, s.t.writes[id]))
    && TraceOk(s.trace)
    && OwnersOk(s)
  }

  // ---------------------------------------------------------------- each step keeps it

  lemma CallSurvives(k: Keys, l: Ledger, later: Ledger, c: Call)
    requires Extends(l, later) && CallOk(k, l, c)
    ensures CallOk(k, later, c)
  {
    hide RetryGuard, AttemptGuard, RequestGuard, History;
  }

  lemma LedgerMoves(k: Keys, s: System, l: Ledger)
    requires SystemInv(k, s) && Inv(k, l) && Extends(s.t.ledger, l)
    ensures SystemInv(k, s.(t := s.t.(ledger := l)))
  {
    hide Inv, TraceOk, CallOk, Extends, IntentBefore;
    forall p | p in s.calls ensures CallOk(k, l, s.calls[p]) { CallSurvives(k, s.t.ledger, l, s.calls[p]); }
    forall id | id in s.t.writes ensures RowOk(l, id, s.t.writes[id]) {
      RowSurvives(s.t.ledger, l, id, s.t.writes[id]);
    }
    assert OwnersOk(s.(t := s.t.(ledger := l)));
  }

  lemma RowSurvives(l: Ledger, later: Ledger, id: CaseId, w: WriteRow)
    requires Extends(l, later) && RowOk(l, id, w)
    ensures RowOk(later, id, w)
  {
    hide History;
  }

  /** A call that moves on without taking a write it does not already own. */
  lemma CallMoves(k: Keys, s: System, p: CallId, c: Call)
    requires SystemInv(k, s) && CallOk(k, s.t.ledger, c) && !c.Intended?
    requires forall id :: Owns(c, id) ==> p in s.calls && Owns(s.calls[p], id)
    ensures SystemInv(k, Continue(s, p, c))
  {
    hide Inv, TraceOk, CallOk, RowOk, IntentBefore, Written;
  }

  lemma RowUpdated(k: Keys, s: System, id: CaseId, w: WriteRow)
    requires SystemInv(k, s) && id in s.t.writes && RowOk(s.t.ledger, id, w)
    ensures SystemInv(k, s.(t := s.t.(writes := s.t.writes[id := w])))
  {
    hide Inv, TraceOk, CallOk, RowOk, IntentBefore, Written;
  }

  lemma TraceGrows(trace: seq<Entry>, e: Entry)
    requires TraceOk(trace)
    requires e.CloudWrite? ==> IntentBefore(trace, |trace|, e.caseId) && !Written(trace, e.caseId)
    ensures TraceOk(trace + [e])
    ensures forall id :: IntentBefore(trace + [e], |trace| + 1, id) <==>
                         IntentBefore(trace, |trace|, id) || e == IntentCommitted(id, Diagnosed)
    ensures forall id :: Written(trace + [e], id) <==> Written(trace, id) || (e.CloudWrite? && e.caseId == id)
  {
    var t := trace + [e];
    assert t[|trace|] == e;
    forall n: int, id | 0 <= n <= |trace| && IntentBefore(trace, n, id) ensures IntentBefore(t, n, id) {
      var i :| 0 <= i < n && trace[i] == IntentCommitted(id, Diagnosed);
      assert t[i] == trace[i];
    }
    forall id
      ensures IntentBefore(t, |t|, id) <==> IntentBefore(trace, |trace|, id) || e == IntentCommitted(id, Diagnosed)
    {
      if IntentBefore(t, |t|, id) {
        var i :| 0 <= i < |t| && t[i] == IntentCommitted(id, Diagnosed);
        assert i < |trace| ==> trace[i] == IntentCommitted(id, Diagnosed);
      }
      if IntentBefore(trace, |trace|, id) {
        var i :| 0 <= i < |trace| && trace[i] == IntentCommitted(id, Diagnosed);
        assert t[i] == trace[i];
      }
    }
    forall id ensures Written(t, id) <==> Written(trace, id) || (e.CloudWrite? && e.caseId == id) {
      if Written(trace, id) {
        var i :| 0 <= i < |trace| && trace[i].CloudWrite? && trace[i].caseId == id;
        assert t[i] == trace[i];
      }
      if Written(t, id) {
        var i :| 0 <= i < |t| && t[i].CloudWrite? && t[i].caseId == id;
        assert i < |trace| ==> trace[i].CloudWrite?;
      }
    }
  }

  /** The checks made at review are the ones `retry_backup` repeats before the runner call. */
  lemma ReviewedOk(k: Keys, l: Ledger, req: Request, current: Snapshot)
    requires Inv(k, l) && req.caseId in l.cases && RequestGuard(req).Ok?
    requires ReviewGuard(k, l.cases[req.caseId], current).Ok?
    ensures HeldOk(k, l, req, l.cases[req.caseId], current)
  {
    assert CaseOk(k, l, req.caseId);
    hide Chained, RowsOf;
    Columns(k, l.cases[req.caseId], History(l, req.caseId));
  }

  lemma InvOf(k: Keys, s: System)
    requires SystemInv(k, s)
    ensures Inv(k, s.t.ledger) && TraceOk(s.trace) && OwnersOk(s)
  {}

  lemma CallFacts(k: Keys, s: System, p: CallId)
    requires SystemInv(k, s) && p in s.calls
    ensures CallOk(k, s.t.ledger, s.calls[p])
    ensures forall id :: Owns(s.calls[p], id) ==> id in s.t.writes && RowOk(s.t.ledger, id, s.t.writes[id])
  {
    hide Inv, TraceOk, CallOk, RowOk;
  }

  lemma BeginHolds(k: Keys, s: System, p: CallId, req: Request)
    requires SystemInv(k, s)
    ensures SystemInv(k, DoBegin(s, p, req))
  {
    hide SystemInv, RequestGuard;
    if p !in s.calls { CallMoves(k, s, p, DoBegin(s, p, req).calls[p]); }
  }

  lemma ReviewHolds(k: Keys, s: System, p: CallId, current: Snapshot)
    requires SystemInv(k, s)
    ensures SystemInv(k, DoReview(k, s, p, current))
  {
    hide SystemInv, HeldOk, ReviewGuard, Inv, RequestGuard;
    if p in s.calls && s.calls[p].Reading? {
      CallFacts(k, s, p);
      var req := s.calls[p].req;
      if req.caseId in s.t.ledger.cases && ReviewGuard(k, s.t.ledger.cases[req.caseId], current).Ok? {
        InvOf(k, s);
        ReviewedOk(k, s.t.ledger, req, current);
      }
      CallMoves(k, s, p, DoReview(k, s, p, current).calls[p]);
    }
  }

  lemma CommitHolds(k: Keys, s: System, p: CallId, now: Time)
    requires SystemInv(k, s)
    ensures SystemInv(k, DoCommit(s, p, now))
  {
    hide Inv, HeldOk, RequestGuard, IntentBefore, Written, TraceOk;
    if p in s.calls && s.calls[p].Reviewed? {
      var c := s.calls[p];
      var id := c.req.caseId;
      CallFacts(k, s, p);
      if InsertIntent(s.t, id, now).Ok? {
        var s' := DoCommit(s, p, now);
        TraceGrows(s.trace, IntentCommitted(id, Diagnosed));
        if Written(s.trace, id) { WrittenHasIntent(s, id); }
        hide CallOk, DoCommit;
        assert s'.t.ledger == s.t.ledger && s'.calls == s.calls[p := Intended(c.req, c.held, c.current)];
        assert OwnersOk(s');
      } else {
        hide SystemInv, CallOk;
        CallMoves(k, s, p, Raised(InsertIntent(s.t, id, now).error));
      }
    }
  }

  /** A cloud write has an intent, and the intent is in the table. */
  lemma WrittenHasIntent(s: System, id: CaseId)
    requires TraceOk(s.trace) && OwnersOk(s) && Written(s.trace, id)
    ensures id in s.t.writes
  {
    var j :| 0 <= j < |s.trace| && s.trace[j].CloudWrite? && s.trace[j].caseId == id;
    assert IntentBefore(s.trace, j, id);
    var i :| 0 <= i < j && s.trace[i] == IntentCommitted(id, Diagnosed);
    assert IntentBefore(s.trace, |s.trace|, id);
  }

  /** Spending an intent: its owner makes the one write and keeps the case. */
  lemma WriteSpends(s: System, p: CallId, c: Call, id: CaseId)
    requires TraceOk(s.trace) && OwnersOk(s)
    requires p in s.calls && s.calls[p].Intended? && s.calls[p].req.caseId == id
    requires !c.Intended? && forall i :: Owns(c, i) ==> i == id
    ensures var s' := System(s.t, s.calls[p := c], s.trace + [CloudWrite(id, p)]);
            TraceOk(s'.trace) && OwnersOk(s')
  {
    hide IntentBefore, Written, TraceOk;
    assert Owns(s.calls[p], id);
    TraceGrows(s.trace, CloudWrite(id, p));
    forall q | q in s.calls && q != p && s.calls[q].Intended? ensures s.calls[q].req.caseId != id {
      assert Owns(s.calls[q], s.calls[q].req.caseId);
    }
  }

  /** Whatever the runner answers, the attempt built from it passes the ledger's guards. */
  lemma BuiltIsRecordable(k: Keys, l: Ledger, c: Call, now: Time, r: Response)
    requires c.Intended? && CallOk(k, l, c)
    ensures CallOk(k, l, Sent(c.req.caseId, BuildAttempt(c.held.scope, c.held.plan.value, c.req.approvals, now, r)))
  {
    hide Propose;
  }

  /** An intended call always writes, and is left with a recordable attempt or a failure to handle. */
  lemma InvokeWrites(k: Keys, s: System, p: CallId, reply: Reply, now: Time) returns (after: Call)
    requires p in s.calls && s.calls[p].Intended? && CallOk(k, s.t.ledger, s.calls[p])
    ensures var id := s.calls[p].req.caseId;
            && DoInvoke(k, s, p, reply, now) == System(s.t, s.calls[p := after], s.trace + [CloudWrite(id, p)])
            && !after.Intended? && (forall i :: Owns(after, i) ==> i == id)
    ensures CallOk(k, s.t.ledger, after)
  {
    var c := s.calls[p];
    assert RetryGuard(k.snapshotSha, c.held.scope, c.held.plan.value, c.current, Approved(c.req)).Ok?;
    if reply.Replied? { BuiltIsRecordable(k, s.t.ledger, c, now, reply.response); }
    hide RetryGuard, AttemptGuard, BuildAttempt, RequestGuard;
    after := DoInvoke(k, s, p, reply, now).calls[p];
  }

  lemma InvokeHolds(k: Keys, s: System, p: CallId, reply: Reply, now: Time)
    requires SystemInv(k, s)
    ensures SystemInv(k, DoInvoke(k, s, p, reply, now))
  {
    hide Inv, TraceOk, OwnersOk, RowOk, CallOk;
    if p in s.calls && s.calls[p].Intended? {
      CallFacts(k, s, p);
      var after := InvokeWrites(k, s, p, reply, now);
      hide DoInvoke;
      WriteSpends(s, p, after, s.calls[p].req.caseId);
    }
  }

  lemma StoreHolds(k: Keys, s: System, p: CallId, now: Time, fault: Fault)
    requires SystemInv(k, s)
    ensures SystemInv(k, DoStore(k, s, p, now, fault))
  {
    hide SystemInv, Inv, Extends, OnCase;
    if p in s.calls && s.calls[p].Sent? {
      var id, attempt := s.calls[p].caseId, s.calls[p].attempt;
      InvOf(k, s);
      var r := OnCase(k, s.t.ledger, id, AttemptOp(attempt, now));
      if !fault.BeforeCommit? && r.Ok? {
        OnCaseStep(k, s.t.ledger, id, AttemptOp(attempt, now));
        LedgerMoves(k, s, r.value);
        StoredIs(k, s.t.ledger, id, attempt, now);
        CallMoves(k, s.(t := s.t.(ledger := r.value)), p, DoStore(k, s, p, now, fault).calls[p]);
      } else {
        CallMoves(k, s, p, DoStore(k, s, p, now, fault).calls[p]);
      }
    }
  }

  lemma StoredIs(k: Keys, l: Ledger, id: CaseId, a: Attempt, now: Time)
    requires OnCase(k, l, id, AttemptOp(a, now)).Ok?
    ensures var l' := OnCase(k, l, id, AttemptOp(a, now)).value; id in l'.cases && l'.cases[id].attempt == Some(a)
  {}

  lemma MarkHolds(k: Keys, s: System, p: CallId, fault: Fault)
    requires SystemInv(k, s)
    ensures SystemInv(k, DoMark(s, p, fault))
  {
    hide SystemInv, Inv;
    if p in s.calls && s.calls[p].AttemptStored? {
      var id, attempt := s.calls[p].caseId, s.calls[p].attempt;
      CallFacts(k, s, p);
      assert Owns(s.calls[p], id);
      if fault.BeforeCommit? {
        CallMoves(k, s, p, Failing(id, fault.errorClass));
      } else {
        RowUpdated(k, s, id, UpdateIntent(s.t, id, attempt).writes[id]);
        CallMoves(k, s.(t := UpdateIntent(s.t, id, attempt)), p, DoMark(s, p, fault).calls[p]);
      }
    }
  }

  lemma HandleHolds(k: Keys, s: System, p: CallId)
    requires SystemInv(k, s)
    ensures SystemInv(k, DoHandle(s, p))
  {
    hide SystemInv, Inv;
    if p in s.calls && s.calls[p].Failing? {
      var id, e := s.calls[p].caseId, s.calls[p].errorClass;
      CallFacts(k, s, p);
      assert Owns(s.calls[p], id);
      RowUpdated(k, s, id, FailIntent(s.t, id, e).writes[id]);
      CallMoves(k, s.(t := FailIntent(s.t, id, e)), p, Raised(Failed(e)));
    }
  }

  lemma CrashHolds(k: Keys, s: System, p: CallId)
    requires SystemInv(k, s) && p in s.calls
    ensures SystemInv(k, Continue(s, p, Dead))
  {
    hide SystemInv;
    CallMoves(k, s, p, Dead);
  }

  lemma NextHolds(k: Keys, s: System, a: Action)
    requires SystemInv(k, s)
    ensures SystemInv(k, Next(k, s, a))
  {
    hide SystemInv, Inv, Extends, CallOk, Step, DoBegin, DoReview, DoCommit, DoInvoke, DoStore, DoMark, DoHandle;
    match a
    case Begin(p, req) => BeginHolds(k, s, p, req);
    case Review(p, current) => ReviewHolds(k, s, p, current);
    case CommitIntent(p, now) => CommitHolds(k, s, p, now);
    case Invoke(p, reply, now) => InvokeHolds(k, s, p, reply, now);
    case StoreAttempt(p, now, fault) => StoreHolds(k, s, p, now, fault);
    case MarkIntent(p, fault) => MarkHolds(k, s, p, fault);
    case HandleFailure(p) => HandleHolds(k, s, p);
    case Crash(p) => if p in s.calls { CrashHolds(k, s, p); }
    case Other(op) =>
      InvOf(k, s);
      StepHolds(k, s.t.ledger, op);
      LedgerMoves(k, s, Step(k, s.t.ledger, op));
  }

  lemma {:induction false} PlayHolds(k: Keys, s: System, actions: seq<Action>)
    requires SystemInv(k, s)
    ensures SystemInv(k, Play(k, s, actions))
    decreases |actions|
  {
    hide SystemInv, Next;
    if actions != [] {
      NextHolds(k, s, actions[0]);
      PlayHolds(k, Next(k, s, actions[0]), actions[1..]);
    }
  }

  lemma ReachableSystem(k: Keys, actions: seq<Action>)
    ensures SystemInv(k, Play(k, START, actions))
  {
    PlayHolds(k, START, actions);
  }

  // ---------------------------------------------------------------- main results

  /** Over every run (any number of calls on a case, interleaved, crashing, timing out or failing
      anywhere, with any other work on the ledger) at most one backup-now request leaves for a case,
      and an intent committed while the case was diagnosed precedes it and is still in the table. */
  lemma AtMostOneCloudWrite(k: Keys, actions: seq<Action>, i: nat, j: nat)
    requires var trace := Play(k, START, actions).trace;
             i < |trace| && j < |trace| && trace[i].CloudWrite? && trace[j].CloudWrite?
                 && trace[i].caseId == trace[j].caseId
    ensures i == j
    ensures var s := Play(k, START, actions);
            IntentBefore(s.trace, i, s.trace[i].caseId) && s.trace[i].caseId in s.t.writes
  {
    var s := Play(k, START, actions);
    ReachableSystem(k, actions);
    hide Play, CallOk, RowOk, Inv;
    assert IntentBefore(s.trace, i, s.trace[i].caseId);
    assert IntentBefore(s.trace, |s.trace|, s.trace[i].caseId) by {
      var n :| 0 <= n < i && s.trace[n] == IntentCommitted(s.trace[i].caseId, Diagnosed);
    }
  }

  /** At most one backup-now request per alert: alert deduplication leaves an alert one case, and the
      intent leaves that case one request. */
  lemma AtMostOneCloudWritePerAlert(k: Keys, actions: seq<Action>, i: nat, j: nat)
    requires var s := Play(k, START, actions);
             i < |s.trace| && j < |s.trace| && s.trace[i].CloudWrite? && s.trace[j].CloudWrite?
    ensures var s := Play(k, START, actions); var cases := s.t.ledger.cases;
            && s.trace[i].caseId in cases && s.trace[j].caseId in cases
            && (cases[s.trace[i].caseId].alertId == cases[s.trace[j].caseId].alertId ==> i == j)
  {
    hide Play, SystemInv, Inv, IntentBefore;
    var s := Play(k, START, actions);
    ReachableSystem(k, actions);
    AtMostOneCloudWrite(k, actions, i, i);
    AtMostOneCloudWrite(k, actions, j, j);
    IntendedCases(k, s);
    if s.trace[i].caseId == s.trace[j].caseId { AtMostOneCloudWrite(k, actions, i, j); }
  }

  lemma IntendedCases(k: Keys, s: System)
    requires SystemInv(k, s)
    ensures forall id :: id in s.t.writes ==> id in s.t.ledger.cases
    ensures UniqueAlerts(s.t.ledger)
  {
    hide CallOk, TraceOk, OwnersOk, CaseOk;
    forall id | id in s.t.writes ensures id in s.t.ledger.cases { assert RowOk(s.t.ledger, id, s.t.writes[id]); }
  }

  /** A committed intent row is never removed and keeps its start, whatever happens next; so a case
      with an intent never again lets a call through to the runner. */
  lemma {:induction false} IntentIsPermanent(k: Keys, s: System, actions: seq<Action>, id: CaseId)
    requires id in s.t.writes
    ensures id in Play(k, s, actions).t.writes
    ensures Play(k, s, actions).t.writes[id].startedAt == s.t.writes[id].startedAt
    decreases |actions|
  {
    if actions != [] {
      hide Step, OnCase, ReviewGuard, RequestGuard, RetryGuard, BuildAttempt;
      var m := Next(k, s, actions[0]);
      assert id in m.t.writes && m.t.writes[id].startedAt == s.t.writes[id].startedAt;
      hide Next;
      IntentIsPermanent(k, m, actions[1..], id);
    }
  }

  /** Guard handoff, first half: once a call has committed its intent, no check stands between it and
      the runner. Its next step makes the request. */
  lemma IntendedCallsTheRunner(k: Keys, actions: seq<Action>, p: CallId, reply: Reply, now: Time)
    requires var s := Play(k, START, actions); p in s.calls && s.calls[p].Intended?
    ensures var s := Play(k, START, actions);
            && RequestGuard(s.calls[p].req).Ok?
            && Next(k, s, Invoke(p, reply, now)).trace == s.trace + [CloudWrite(s.calls[p].req.caseId, p)]
  {
    var s := Play(k, START, actions);
    ReachableSystem(k, actions);
    hide Play, RetryGuard, SystemInv, BuildAttempt, RequestGuard;
    CallFacts(k, s, p);
  }

  /** Guard handoff, second half: the attempt built from the reply passes every guard of
      `record_attempt` for as long as the case is still diagnosed. */
  lemma SentAttemptIsRecordable(k: Keys, actions: seq<Action>, p: CallId, now: Time)
    requires var s := Play(k, START, actions); p in s.calls && s.calls[p].Sent?
    ensures var s := Play(k, START, actions); var c := s.calls[p];
            && c.caseId in s.t.ledger.cases
            && (s.t.ledger.cases[c.caseId].state == Diagnosed ==>
                  OnCase(k, s.t.ledger, c.caseId, AttemptOp(c.attempt, now)).Ok?)
  {
    var s := Play(k, START, actions);
    ReachableSystem(k, actions);
    hide Play, AttemptGuard, SystemInv, WithEvent;
    CallFacts(k, s, p);
  }

  /** "recorded" always means: that very attempt is stored on the case, it was accepted with a job
      id, and the case is waiting for its result or verified. */
  lemma RecordedMeans(k: Keys, actions: seq<Action>, id: CaseId)
    requires var s := Play(k, START, actions); id in s.t.writes && s.t.writes[id].state == Recorded
    ensures var s := Play(k, START, actions);
            && id in s.t.ledger.cases && s.t.writes[id].attempt.Some?
            && s.t.ledger.cases[id].attempt == s.t.writes[id].attempt
            && Accepted(s.t.writes[id].attempt.value)
            && (s.t.ledger.cases[id].state == AwaitingResult || s.t.ledger.cases[id].state == Verified)
  {
    var s := Play(k, START, actions);
    ReachableSystem(k, actions);
    hide Play, TraceOk, OwnersOk, CallOk;
    assert RowOk(s.t.ledger, id, s.t.writes[id]);
    hide Inv;
    InvOf(k, s);
    AttemptDecidesState(k, s.t.ledger, id);
  }

  /** The converse fails: when the ledger entry commits and reading it back raises, the intent is left
      uncertain beside the very attempt the case holds. */
  lemma UncertainBesideStored(k: Keys, s: System, p: CallId, now: Time, errorClass: string)
    requires p in s.calls && s.calls[p].Sent? && s.calls[p].caseId in s.t.writes
    requires OnCase(k, s.t.ledger, s.calls[p].caseId, AttemptOp(s.calls[p].attempt, now)).Ok?
    ensures var id, attempt := s.calls[p].caseId, s.calls[p].attempt;
            var t := Next(k, Next(k, s, StoreAttempt(p, now, AfterCommit(errorClass))), HandleFailure(p)).t;
            && id in t.writes && t.writes[id].state == Uncertain
            && id in t.ledger.cases && t.ledger.cases[id].attempt == Some(attempt)
  {
    hide OnCase, DoBegin, DoReview, DoCommit, DoInvoke, DoMark;
    StoredIs(k, s.t.ledger, s.calls[p].caseId, s.calls[p].attempt, now);
  }
}
