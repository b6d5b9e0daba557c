/** The durable case ledger: two tables (cases, and one log of chained events shared by all cases),
    four transactions, and what holds of every ledger they can produce. Each transaction commits
    whole or not at all. */
module CaseLedger {
  import opened Common
  import opened EventChain
  import opened BackupResolution

  type CaseId = string

  datatype LedgerError =
    | NotFiredAlert | AlertIdRequired | FiredAtInvalid | TargetsRequired | OutsideVault
    | DuplicateAlertOtherScope | CaseIdTaken | CaseNotFound | SnapshotScopeMismatch | AlreadyDiagnosed
    | NotAwaitingRetry | AttemptScopeMismatch | NotBoundToDiagnosis | NotBackupNow | ApprovalsRequired
    | NotAwaitingVerification | AfterScopeMismatch | AfterAccountNotVerified | CaseClosed | VerifyFailed

  // ---------------------------------------------------------------- alerts

  /** An alert document as parsed: `alertId` is None unless it is a nonblank string, `firedAt` unless
      it is an instant with a timezone, `targets` unless it is a list of strings (in lower case). */
  datatype Alert = Alert(commonSchema: bool, fired: bool, alertId: Option<string>, firedAt: Option<Time>,
                         targets: Option<seq<string>>, severity: Option<string>)

  datatype Normalized = Normalized(alertId: string, firedAt: Time, vault: string, severity: Option<string>)

  function Lower(s: string): string {
    seq(|s|, i requires 0 <= i < |s| => if 'A' <= s[i] <= 'Z' then s[i] - 'A' + 'a' else s[i])
  }

  function VaultPath(scope: Scope): string {
    Lower("/subscriptions/" + scope.subscriptionId + "/resourceGroups/" + scope.resourceGroup
          + "/providers/Microsoft.RecoveryServices/vaults/" + scope.vaultName)
  }

  function ParseAlert(alert: Alert, scope: Scope): Result<Normalized, LedgerError> {
    if !alert.commonSchema || !alert.fired then Err(NotFiredAlert)
    else if alert.alertId.None? || |alert.alertId.value| > 512 then Err(AlertIdRequired)
    else if alert.firedAt.None? then Err(FiredAtInvalid)
    else if alert.targets.None? || alert.targets.value == [] then Err(TargetsRequired)
    else
      var vault := VaultPath(scope);
      if exists t :: t in alert.targets.value && (t == vault || vault + "/" <= t)
      then Ok(Normalized(alert.alertId.value, alert.firedAt.value, vault, alert.severity))
      else Err(OutsideVault)
  }

  // ---------------------------------------------------------------- tables

  datatype Status = VerifiedBackup | Unverified | StatusUnknown

  datatype Detail =
    | AlertIngested(alert: Normalized)
    | DiagnosisMade(action: Action, snapshotSha: Digest)
    | RetryRecorded(requestStatus: string, requestJobId: Option<string>)
    | VerificationRecorded(status: Status)

  datatype EventBody = EventBody(at: Time, detail: Detail)

  datatype CaseState = Received | Diagnosed | NeedsReview | AwaitingResult | Verified

  datatype Case = Case(alertId: string, version: string, scope: Scope, state: CaseState, createdAt: Time,
                       snapshot: Option<Snapshot>, plan: Option<Plan>, attempt: Option<Attempt>,
                       outcome: Option<Outcome>, after: Option<Snapshot>)

  datatype LogRow = LogRow(caseId: CaseId, row: Row<EventBody>)

  datatype Ledger = Ledger(cases: map<CaseId, Case>, log: seq<LogRow>)

  const EMPTY: Ledger := Ledger(map[], [])

  /** The digest and encoding primitives, all uninterpreted. */
  datatype Keys = Keys(chain: Codec<EventBody>, snapshotSha: Snapshot -> Digest)

  /** The rows of one case in insertion order. */
  function RowsOf(log: seq<LogRow>, id: CaseId): seq<Row<EventBody>> {
    if log == [] then []
    else
      var last := log[|log| - 1];
      RowsOf(log[..|log| - 1], id) + if last.caseId == id then [last.row] else []
  }

  lemma RowsOfAppend(log: seq<LogRow>, r: LogRow, id: CaseId)
    ensures RowsOf(log + [r], id) == RowsOf(log, id) + if r.caseId == id then [r.row] else []
  {
    assert (log + [r])[..|log|] == log;
  }

  ghost function History(l: Ledger, id: CaseId): seq<Option<EventBody>> { Bodies(RowsOf(l.log, id)) }

  /** Write a case row and append one event to its chain. */
  function WithEvent(k: Keys, l: Ledger, id: CaseId, c: Case, body: EventBody): Ledger {
    var prev := FinalHash(RowsOf(l.log, id));
    Ledger(l.cases[id := c], l.log + [LogRow(id, Row(Complete(body, map[]), prev, Link(k.chain, prev, body)))])
  }

  // ---------------------------------------------------------------- transactions

  ghost function CaseFor(l: Ledger, alertId: string): (r: Option<CaseId>)
    ensures r.Some? ==> r.value in l.cases && l.cases[r.value].alertId == alertId
    ensures r.None? ==> forall id :: id in l.cases ==> l.cases[id].alertId != alertId
  {
    if exists id :: id in l.cases && l.cases[id].alertId == alertId
    then var id :| id in l.cases && l.cases[id].alertId == alertId; Some(id)
    else None
  }

  function NewCase(alertId: string, version: string, scope: Scope, now: Time): Case {
    Case(alertId, version, scope, Received, now, None, None, None, None, None)
  }

  ghost function Ingest(k: Keys, l: Ledger, version: string, alert: Alert, scope: Scope, newId: CaseId, now: Time)
    : Result<(Ledger, CaseId), LedgerError>
  {
    match ParseAlert(alert, scope)
    case Err(e) => Err(e)
    case Ok(n) =>
      var existing := CaseFor(l, n.alertId);
      if existing.Some? then
        if l.cases[existing.value].scope != scope then Err(DuplicateAlertOtherScope) else Ok((l, existing.value))
      else if newId in l.cases then Err(CaseIdTaken)
      else Ok((WithEvent(k, l, newId, NewCase(n.alertId, version, scope, now), EventBody(now, AlertIngested(n))),
               newId))
  }

  /** What an accepted transaction does to its case: nothing (a repeat of what is already stored), or
      new columns and one event. */
  datatype Change = Keep | Write(c: Case, body: EventBody)

  function DiagnoseCase(k: Keys, c: Case, s: Snapshot, now: Time): Result<Change, LedgerError> {
    if s.scope != c.scope then Err(SnapshotScopeMismatch)
    else if c.state != Received then if c.snapshot == Some(s) then Ok(Keep) else Err(AlreadyDiagnosed)
    else
      var plan := Propose(k.snapshotSha, s);
      var state := if plan.action == BackupNowCandidate then Diagnosed else NeedsReview;
      Ok(Write(c.(state := state, snapshot := Some(s), plan := Some(plan)),
               EventBody(now, DiagnosisMade(plan.action, plan.snapshotSha))))
  }

  /** The guards `record_attempt` applies to an attempt on a diagnosed case. */
  function AttemptGuard(scope: Scope, plan: Plan, a: Attempt): Result<(), LedgerError> {
    if a.scope != scope then Err(AttemptScopeMismatch)
    else if a.failedJobId != plan.failedJobId || a.planSha != Some(plan.snapshotSha) then Err(NotBoundToDiagnosis)
    else if a.action != "backup-now" || !a.mutationAttempted then Err(NotBackupNow)
    else if !a.causeReviewed || a.approvals.None? || !(APPROVERS <= (set r | r in a.approvals.value))
      then Err(ApprovalsRequired)
    else Ok(())
  }

  function AttemptCase(c: Case, a: Attempt, now: Time): Result<Change, LedgerError> {
    if c.state != Diagnosed || c.plan.None? then if c.attempt == Some(a) then Ok(Keep) else Err(NotAwaitingRetry)
    else
      match AttemptGuard(c.scope, c.plan.value, a)
      case Err(e) => Err(e)
      case Ok(_) =>
        var state := if Accepted(a) then AwaitingResult else NeedsReview;
        Ok(Write(c.(state := state, attempt := Some(a)),
                 EventBody(now, RetryRecorded(a.requestStatus, a.requestJobId))))
  }

  function StatusOf(o: Outcome): Status {
    if o.Unknown? then StatusUnknown else if o.passed then VerifiedBackup else Unverified
  }

  function VerifyCase(c: Case, after: Snapshot, now: Time): Result<Change, LedgerError> {
    if c.state != AwaitingResult && c.state != Verified then Err(NotAwaitingVerification)
    else if after.scope != c.scope then Err(AfterScopeMismatch)
    else if !after.accountVerified then Err(AfterAccountNotVerified)
    else if c.after == Some(after) then Ok(Keep)
    else if c.state == Verified then Err(CaseClosed)
    else if c.snapshot.None? || c.attempt.None? then Err(VerifyFailed)
    else
      match Verify(c.snapshot.value, after, c.attempt.value)
      case Err(_) => Err(VerifyFailed)
      case Ok(o) =>
        var state := if StatusOf(o) == VerifiedBackup then Verified else AwaitingResult;
        Ok(Write(c.(state := state, outcome := Some(o), after := Some(after)),
                 EventBody(now, VerificationRecorded(StatusOf(o)))))
  }

  /** The three transactions on an existing case. */
  datatype CaseOp =
    | DiagnoseOp(snapshot: Snapshot, now: Time)
    | AttemptOp(attempt: Attempt, now: Time)
    | VerifyOp(after: Snapshot, now: Time)

  function ChangeCase(k: Keys, c: Case, op: CaseOp): Result<Change, LedgerError> {
    match op
    case DiagnoseOp(s, now) => DiagnoseCase(k, c, s, now)
    case AttemptOp(a, now) => AttemptCase(c, a, now)
    case VerifyOp(after, now) => VerifyCase(c, after, now)
  }

  function OnCase(k: Keys, l: Ledger, id: CaseId, op: CaseOp): Result<Ledger, LedgerError> {
    if id !in l.cases then Err(CaseNotFound)
    else
      match ChangeCase(k, l.cases[id], op)
      case Err(e) => Err(e)
      case Ok(Keep) => Ok(l)
      case Ok(Write(c, body)) => Ok(WithEvent(k, l, id, c, body))
  }

  datatype Op =
    | OpIngest(version: string, alert: Alert, scope: Scope, newId: CaseId, now: Time)
    | OpCase(id: CaseId, op: CaseOp)

  /** One transaction: the new ledger, or the old one when it is rejected. */
  ghost function Step(k: Keys, l: Ledger, op: Op): Ledger {
    match op
    case OpIngest(version, alert, scope, newId, now) =>
      (match Ingest(k, l, version, alert, scope, newId, now) case Ok(r) => r.0 case Err(_) => l)
    case OpCase(id, op) => (match OnCase(k, l, id, op) case Ok(l') => l' case Err(_) => l)
  }

  ghost function Run(k: Keys, l: Ledger, ops: seq<Op>): Ledger
    decreases |ops|
  {
    if ops == [] then l else Run(k, Step(k, l, ops[0]), ops[1..])
  }

  // ---------------------------------------------------------------- what the events determine

  function Advance(state: CaseState, d: Detail): Option<CaseState> {
    match (state, d)
    case (Received, DiagnosisMade(action, _)) => Some(if action == BackupNowCandidate then Diagnosed else NeedsReview)
    case (Diagnosed, RetryRecorded(status, job)) =>
      Some(if status == "accepted" && job.Some? && job.value != "" then AwaitingResult else NeedsReview)
    case (AwaitingResult, VerificationRecorded(s)) => Some(if s == VerifiedBackup then Verified else AwaitingResult)
    case _ => None
  }

  /** The state a history leads to; None when no run of the transactions can record it. */
  function Replay(h: seq<Option<EventBody>>): Option<CaseState> {
    if h == [] || h[|h| - 1].None? then None
    else
      var d := h[|h| - 1].value.detail;
      if |h| == 1 then if d.AlertIngested? then Some(Received) else None
      else
        var before := Replay(h[..|h| - 1]);
        if before.None? then None else Advance(before.value, d)
  }

  ghost predicate IsDetail(h: seq<Option<EventBody>>, i: int, d: Detail) {
    0 <= i < |h| && h[i].Some? && h[i].value.detail == d
  }

  /** Every stored column is tied to the events that wrote it. */
  ghost predicate Consistent(k: Keys, c: Case, h: seq<Option<EventBody>>) {
    && Replay(h) == Some(c.state)
    && (exists n :: IsDetail(h, 0, AlertIngested(n)) && n.alertId == c.alertId)
    && (c.snapshot.Some? <==> |h| >= 2) && (c.plan.Some? <==> |h| >= 2)
    && (|h| >= 2 ==>
          && c.snapshot.value.scope == c.scope
          && c.plan.value == Propose(k.snapshotSha, c.snapshot.value)
          && IsDetail(h, 1, DiagnosisMade(c.plan.value.action, c.plan.value.snapshotSha)))
    && (c.attempt.Some? <==> |h| >= 3)
    && (|h| >= 3 ==>
          && AttemptGuard(c.scope, c.plan.value, c.attempt.value).Ok?
          && IsDetail(h, 2, RetryRecorded(c.attempt.value.requestStatus, c.attempt.value.requestJobId)))
    && (c.outcome.Some? <==> |h| >= 4) && (c.after.Some? <==> |h| >= 4)
    && (|h| >= 4 ==>
          && c.after.value.scope == c.scope && c.after.value.accountVerified
          && Verify(c.snapshot.value, c.after.value, c.attempt.value) == Ok(c.outcome.value)
          && IsDetail(h, |h| - 1, VerificationRecorded(StatusOf(c.outcome.value))))
  }

  ghost predicate CaseOk(k: Keys, l: Ledger, id: CaseId)
    requires id in l.cases
  {
    Chained(k.chain, RowsOf(l.log, id)) && Consistent(k, l.cases[id], History(l, id))
  }

  /** UNIQUE(workcell_id, alert_id); recipe validation leaves one workcell. */
  ghost predicate UniqueAlerts(l: Ledger) {
    forall i, j :: i in l.cases && j in l.cases && l.cases[i].alertId == l.cases[j].alertId ==> i == j
  }

  ghost predicate Inv(k: Keys, l: Ledger) {
    && (forall id :: id in l.cases ==> CaseOk(k, l, id))
    && (forall i :: 0 <= i < |l.log| ==> l.log[i].caseId in l.cases)
    && UniqueAlerts(l)
  }

  lemma {:induction false} NoForeignRows(log: seq<LogRow>, id: CaseId)
    requires forall i :: 0 <= i < |log| ==> log[i].caseId != id
    ensures RowsOf(log, id) == []
  {
    if log != [] { NoForeignRows(log[..|log| - 1], id); }
  }

  lemma WithEventRows(k: Keys, l: Ledger, id: CaseId, c: Case, body: EventBody)
    ensures RowsOf(WithEvent(k, l, id, c, body).log, id) == Append(k.chain, RowsOf(l.log, id), body)
    ensures forall j :: j != id ==> RowsOf(WithEvent(k, l, id, c, body).log, j) == RowsOf(l.log, j)
  {
    var r := WithEvent(k, l, id, c, body).log[|l.log|];
    RowsOfAppend(l.log, r, id);
    forall j | j != id ensures RowsOf(l.log + [r], j) == RowsOf(l.log, j) { RowsOfAppend(l.log, r, j); }
  }

  lemma WithEventHistory(k: Keys, l: Ledger, id: CaseId, c: Case, body: EventBody)
    requires Chained(k.chain, RowsOf(l.log, id))
    ensures var l' := WithEvent(k, l, id, c, body);
            && Chained(k.chain, RowsOf(l'.log, id))
            && History(l', id) == History(l, id) + [Some(body)]
            && forall j :: j != id ==> RowsOf(l'.log, j) == RowsOf(l.log, j) && History(l', j) == History(l, j)
  {
    WithEventRows(k, l, id, c, body);
    AppendKeepsChain(k.chain, RowsOf(l.log, id), body);
  }

  lemma ChainOf(k: Keys, l: Ledger, id: CaseId)
    requires Inv(k, l)
    ensures Chained(k.chain, RowsOf(l.log, id))
  {
    if id in l.cases { assert CaseOk(k, l, id); } else { NoForeignRows(l.log, id); }
  }

  lemma UniqueAfterWrite(l: Ledger, id: CaseId, c: Case, log: seq<LogRow>)
    requires UniqueAlerts(l)
    requires id in l.cases ==> c.alertId == l.cases[id].alertId
    requires id !in l.cases ==> CaseFor(l, c.alertId).None?
    ensures UniqueAlerts(Ledger(l.cases[id := c], log))
  {}

  /** Appending one consistent event to one case keeps every other case's history and chain. */
  lemma WithEventKeeps(k: Keys, l: Ledger, id: CaseId, c: Case, body: EventBody)
    requires Inv(k, l)
    requires Consistent(k, c, History(l, id) + [Some(body)])
    requires id in l.cases ==> c.alertId == l.cases[id].alertId
    requires id !in l.cases ==> CaseFor(l, c.alertId).None?
    ensures Inv(k, WithEvent(k, l, id, c, body))
  {
    hide Consistent, Chained, RowsOf, Link, FinalHash, History, Bodies, Replay;
    ChainOf(k, l, id);
    WithEventHistory(k, l, id, c, body);
    var l' := WithEvent(k, l, id, c, body);
    forall j | j in l'.cases ensures CaseOk(k, l', j) {
      if j != id { assert CaseOk(k, l, j); }
    }
    UniqueAfterWrite(l, id, c, l'.log);
    hide CaseOk, UniqueAlerts;
  }

  /** The grammar of histories: ingested (diagnosed (retry verification*)?)?, with the verdict that
      ends it, if any, in last place. */
  lemma {:induction false} ReplayShape(h: seq<Option<EventBody>>)
    requires Replay(h).Some?
    ensures |h| >= 1 && (forall i :: 0 <= i < |h| ==> h[i].Some?)
    ensures h[0].value.detail.AlertIngested?
    ensures |h| >= 2 ==> h[1].value.detail.DiagnosisMade?
    ensures |h| >= 3 ==> h[1].value.detail.action == BackupNowCandidate && h[2].value.detail.RetryRecorded?
    ensures |h| >= 4 ==> h[2].value.detail.requestStatus == "accepted" && h[2].value.detail.requestJobId.Some?
                         && h[2].value.detail.requestJobId.value != ""
    ensures forall i :: 3 <= i < |h| ==> h[i].value.detail.VerificationRecorded?
    ensures forall i :: 3 <= i < |h| - 1 ==> h[i].value.detail.status != VerifiedBackup
    ensures match Replay(h).value {
              case Received => |h| == 1
              case Diagnosed => |h| == 2 && h[1].value.detail.action == BackupNowCandidate
              case NeedsReview => |h| == 2 || |h| == 3
              case AwaitingResult => |h| >= 3 && h[2].value.detail.requestStatus == "accepted"
                  && h[2].value.detail.requestJobId.Some?
                                     && h[2].value.detail.requestJobId.value != ""
                                     && (|h| >= 4 ==> h[|h| - 1].value.detail.status != VerifiedBackup)
              case Verified => |h| >= 4 && h[|h| - 1].value.detail.status == VerifiedBackup
            }
  {
    if |h| >= 2 {
      var p := h[..|h| - 1];
      ReplayShape(p);
      assert forall i :: 0 <= i < |p| ==> p[i] == h[i];
    }
  }

  /** Extending a history keeps its earlier entries and replays one step further. */
  lemma ExtendHistory(h: seq<Option<EventBody>>, body: EventBody)
    requires Replay(h).Some?
    ensures forall i, d :: IsDetail(h, i, d) ==> IsDetail(h + [Some(body)], i, d)
    ensures IsDetail(h + [Some(body)], |h|, body.detail)
    ensures Replay(h + [Some(body)]) == Advance(Replay(h).value, body.detail)
  {
    assert (h + [Some(body)])[..|h|] == h;
  }

  /** Which columns each state has filled. */
  lemma Columns(k: Keys, c: Case, h: seq<Option<EventBody>>)
    requires Consistent(k, c, h)
    ensures (c.state == Received <==> c.plan.None?) && (c.snapshot.Some? <==> c.plan.Some?)
    ensures c.state == Received || c.state == Diagnosed ==> c.attempt.None?
    ensures c.state == AwaitingResult || c.state == Verified ==> c.attempt.Some?
    ensures c.state == Verified ==> c.outcome.Some? && c.after.Some?
    ensures match c.state case Received => |h| == 1 case Diagnosed => |h| == 2 case NeedsReview => |h| == 2 || |h| == 3
                          case AwaitingResult => |h| >= 3 case Verified => |h| >= 4
  {
    hide Propose, Verify, AttemptGuard;
    ReplayShape(h);
  }

  lemma DiagnoseStays(k: Keys, c: Case, h: seq<Option<EventBody>>, s: Snapshot, now: Time)
    requires Consistent(k, c, h) && DiagnoseCase(k, c, s, now).Ok? && DiagnoseCase(k, c, s, now).value.Write?
    ensures var w := DiagnoseCase(k, c, s, now).value;
            Consistent(k, w.c, h + [Some(w.body)]) && CaseExtends(c, w.c)
  {
    Columns(k, c, h);
    hide Replay, Propose, Verify, AttemptGuard;
    ExtendHistory(h, DiagnoseCase(k, c, s, now).value.body);
  }

  lemma AttemptStays(k: Keys, c: Case, h: seq<Option<EventBody>>, a: Attempt, now: Time)
    requires Consistent(k, c, h) && AttemptCase(c, a, now).Ok? && AttemptCase(c, a, now).value.Write?
    ensures var w := AttemptCase(c, a, now).value;
            Consistent(k, w.c, h + [Some(w.body)]) && CaseExtends(c, w.c)
  {
    Columns(k, c, h);
    hide Replay, Propose, Verify, AttemptGuard;
    ExtendHistory(h, AttemptCase(c, a, now).value.body);
  }

  lemma VerifyStays(k: Keys, c: Case, h: seq<Option<EventBody>>, after: Snapshot, now: Time)
    requires Consistent(k, c, h) && VerifyCase(c, after, now).Ok? && VerifyCase(c, after, now).value.Write?
    ensures var w := VerifyCase(c, after, now).value;
            Consistent(k, w.c, h + [Some(w.body)]) && CaseExtends(c, w.c)
  {
    Columns(k, c, h);
    hide Replay, Propose, Verify, AttemptGuard;
    ExtendHistory(h, VerifyCase(c, after, now).value.body);
  }

  /** Each transaction on a case keeps columns and history consistent, freezes what it must, and
      never touches a verified case. */
  lemma ChangeStays(k: Keys, c: Case, h: seq<Option<EventBody>>, op: CaseOp)
    requires Consistent(k, c, h) && ChangeCase(k, c, op).Ok? && ChangeCase(k, c, op).value.Write?
    ensures var w := ChangeCase(k, c, op).value;
            && Consistent(k, w.c, h + [Some(w.body)])
            && CaseExtends(c, w.c) && c.state != Verified
  {
    match op
    case DiagnoseOp(s, now) => DiagnoseStays(k, c, h, s, now);
    case AttemptOp(a, now) => AttemptStays(k, c, h, a, now);
    case VerifyOp(after, now) => VerifyStays(k, c, h, after, now);
  }

  /** `later` is a row some run can lead `c` to: identity columns and everything already diagnosed,
      attempted or verified are frozen. */
  ghost predicate CaseExtends(c: Case, later: Case) {
    && later.alertId == c.alertId && later.version == c.version && later.scope == c.scope
    && later.createdAt == c.createdAt
    && (c.state != Received ==> later.snapshot == c.snapshot && later.plan == c.plan && later.state != Received)
    && (c.attempt.Some? ==> later.attempt == c.attempt)
    && (c.state == AwaitingResult || c.state == Verified ==> later.state == AwaitingResult || later.state == Verified)
    && (c.state == NeedsReview || c.state == Verified ==> later == c)
  }

  /** A case and its history, continued by a later case and history. */
  ghost predicate Continues(c: Case, h: seq<Option<EventBody>>, d: Case, g: seq<Option<EventBody>>) {
    CaseExtends(c, d) && h <= g && (c.state == Verified ==> g == h)
  }

  ghost predicate Extends(l: Ledger, later: Ledger) {
    forall id :: id in l.cases ==>
      id in later.cases && Continues(l.cases[id], History(l, id), later.cases[id], History(later, id))
  }

  lemma ExtendsItself(l: Ledger)
    ensures Extends(l, l)
  {
    hide History;
  }

  lemma ExtendsTransitive(l: Ledger, m: Ledger, z: Ledger)
    requires Extends(l, m) && Extends(m, z)
    ensures Extends(l, z)
  {
    hide History;
    forall id | id in l.cases
      ensures id in z.cases && Continues(l.cases[id], History(l, id), z.cases[id], History(z, id))
    {
      assert id in m.cases && Continues(m.cases[id], History(m, id), z.cases[id], History(z, id));
    }
  }

  lemma OnCaseStep(k: Keys, l: Ledger, id: CaseId, op: CaseOp)
    requires Inv(k, l) && OnCase(k, l, id, op).Ok?
    ensures Inv(k, OnCase(k, l, id, op).value) && Extends(l, OnCase(k, l, id, op).value)
  {
    assert CaseOk(k, l, id);
    hide Consistent, History, RowsOf, ChangeCase, Chained;
    if ChangeCase(k, l.cases[id], op).value.Write? {
      var w := ChangeCase(k, l.cases[id], op).value;
      ChangeStays(k, l.cases[id], History(l, id), op);
      WithEventKeeps(k, l, id, w.c, w.body);
      WithEventExtends(k, l, id, w.c, w.body);
    } else {
      ExtendsItself(l);
    }
  }

  lemma WithEventExtends(k: Keys, l: Ledger, id: CaseId, c: Case, body: EventBody)
    requires Inv(k, l) && (id in l.cases ==> CaseExtends(l.cases[id], c) && l.cases[id].state != Verified)
    ensures Extends(l, WithEvent(k, l, id, c, body))
  {
    hide Inv, History, RowsOf;
    ChainOf(k, l, id);
    WithEventHistory(k, l, id, c, body);
  }

  lemma IngestStep(k: Keys, l: Ledger, version: string, alert: Alert, scope: Scope, newId: CaseId, now: Time)
    requires Inv(k, l) && Ingest(k, l, version, alert, scope, newId, now).Ok?
    ensures var (l', id) := Ingest(k, l, version, alert, scope, newId, now).value;
            && Inv(k, l') && Extends(l, l') && CaseFor(l', ParseAlert(alert, scope).value.alertId) == Some(id)
            && l'.cases[id].scope == scope
  {
    hide ParseAlert, RowsOf, Consistent, Extends, History, CaseOk, WithEvent;
    var n := ParseAlert(alert, scope).value;
    var (l', id) := Ingest(k, l, version, alert, scope, newId, now).value;
    if CaseFor(l, n.alertId).None? {
      OpensNew(k, l, n, version, scope, newId, now);
    } else {
      ExtendsItself(l);
    }
    assert UniqueAlerts(l') && l'.cases[id].alertId == n.alertId;
  }

  lemma OpensNew(k: Keys, l: Ledger, n: Normalized, version: string, scope: Scope, newId: CaseId, now: Time)
    requires Inv(k, l) && CaseFor(l, n.alertId).None? && newId !in l.cases
    ensures var c := NewCase(n.alertId, version, scope, now);
            var l' := WithEvent(k, l, newId, c, EventBody(now, AlertIngested(n)));
            Inv(k, l') && Extends(l, l') && newId in l'.cases && l'.cases[newId] == c
  {
    hide RowsOf, Consistent, Extends, CaseOk, Bodies, UniqueAlerts;
    var c, body := NewCase(n.alertId, version, scope, now), EventBody(now, AlertIngested(n));
    NoForeignRows(l.log, newId);
    NothingYet(l, newId);
    NewCaseConsistent(k, n, version, scope, now);
    assert History(l, newId) + [Some(body)] == [Some(body)];
    WithEventKeeps(k, l, newId, c, body);
    WithEventExtends(k, l, newId, c, body);
  }

  lemma NothingYet(l: Ledger, id: CaseId)
    requires RowsOf(l.log, id) == []
    ensures History(l, id) == []
  {}

  lemma NewCaseConsistent(k: Keys, n: Normalized, version: string, scope: Scope, now: Time)
    ensures Consistent(k, NewCase(n.alertId, version, scope, now), [Some(EventBody(now, AlertIngested(n)))])
  {
    assert IsDetail([Some(EventBody(now, AlertIngested(n)))], 0, AlertIngested(n));
  }

  lemma StepHolds(k: Keys, l: Ledger, op: Op)
    requires Inv(k, l)
    ensures Inv(k, Step(k, l, op)) && Extends(l, Step(k, l, op))
  {
    hide Inv, Extends, Ingest, OnCase;
    ExtendsItself(l);
    match op
    case OpIngest(version, alert, scope, newId, now) =>
      if Ingest(k, l, version, alert, scope, newId, now).Ok? { IngestStep(k, l, version, alert, scope, newId, now); }
    case OpCase(id, op) => if OnCase(k, l, id, op).Ok? { OnCaseStep(k, l, id, op); }
  }

  /** Main result on the ledger: every ledger any sequence of transactions can reach satisfies the
      invariant (each case's chain verifies and its columns are those its events determine), and
      nothing that was diagnosed, attempted or verified on the way has changed since. */
  lemma {:induction false} RunHolds(k: Keys, l: Ledger, ops: seq<Op>)
    requires Inv(k, l)
    ensures Inv(k, Run(k, l, ops)) && Extends(l, Run(k, l, ops))
    decreases |ops|
  {
    hide Inv, Extends, Step;
    if ops == [] {
      ExtendsItself(l);
    } else {
      StepHolds(k, l, ops[0]);
      RunHolds(k, Step(k, l, ops[0]), ops[1..]);
      ExtendsTransitive(l, Step(k, l, ops[0]), Run(k, l, ops));
    }
  }

  lemma ReachableLedger(k: Keys, ops: seq<Op>)
    ensures Inv(k, Run(k, EMPTY, ops))
  {
    RunHolds(k, EMPTY, ops);
  }

  /** What "verified" means in any reachable ledger, and that nothing changes it afterwards. */
  lemma VerifiedMeans(k: Keys, ops: seq<Op>, more: seq<Op>, id: CaseId)
    requires id in Run(k, EMPTY, ops).cases && Run(k, EMPTY, ops).cases[id].state == Verified
    ensures var c := Run(k, EMPTY, ops).cases[id];
            && c.snapshot.Some? && c.after.Some? && c.attempt.Some? && c.attempt.value.approvals.Some?
            && (exists i :: IsLatest(c.snapshot.value.jobs, i) && c.snapshot.value.jobs[i].status == "Failed"
                            && c.attempt.value.failedJobId == Some(c.snapshot.value.jobs[i].id))
            && "workload-owner" in c.attempt.value.approvals.value
            && "backup-operator" in c.attempt.value.approvals.value && c.attempt.value.causeReviewed
            && BackupProven(c.snapshot.value, c.after.value, c.attempt.value)
            && c.after.value.accountVerified
    ensures var l := Run(k, EMPTY, ops); var l' := Run(k, l, more);
            id in l'.cases && l'.cases[id] == l.cases[id] && History(l', id) == History(l, id)
  {
    var l := Run(k, EMPTY, ops);
    ReachableLedger(k, ops);
    RunHolds(k, l, more);
    hide Run;
    VerifiedCase(k, l, id);
  }

  lemma VerifiedCase(k: Keys, l: Ledger, id: CaseId)
    requires Inv(k, l) && id in l.cases && l.cases[id].state == Verified
    ensures var c := l.cases[id];
            && c.snapshot.Some? && c.after.Some? && c.attempt.Some? && c.attempt.value.approvals.Some?
            && (exists i :: IsLatest(c.snapshot.value.jobs, i) && c.snapshot.value.jobs[i].status == "Failed"
                            && c.attempt.value.failedJobId == Some(c.snapshot.value.jobs[i].id))
            && "workload-owner" in c.attempt.value.approvals.value
            && "backup-operator" in c.attempt.value.approvals.value && c.attempt.value.causeReviewed
            && BackupProven(c.snapshot.value, c.after.value, c.attempt.value)
            && c.after.value.accountVerified
            && c.outcome.Some? && Verify(c.snapshot.value, c.after.value, c.attempt.value) == Ok(c.outcome.value)
            && Passed(c.outcome.value)
            && IsDetail(History(l, id), |History(l, id)| - 1, VerificationRecorded(VerifiedBackup))
  {
    assert CaseOk(k, l, id);
    var c, h := l.cases[id], History(l, id);
    ReplayShape(h);
    hide Replay, RowsOf, History;
    assert Verify(c.snapshot.value, c.after.value, c.attempt.value) == Ok(c.outcome.value) && Passed(c.outcome.value);
    CandidateMeansLatestFailed(k.snapshotSha, c.snapshot.value);
    VerifyExact(c.snapshot.value, c.after.value, c.attempt.value);
    hide Verify, BackupProven, Propose;
  }

  /** In a reachable ledger a stored attempt's acceptance decides the state: only a request that was
      accepted and named a job is waited for or verified. */
  lemma AttemptDecidesState(k: Keys, l: Ledger, id: CaseId)
    requires Inv(k, l) && id in l.cases && l.cases[id].attempt.Some?
    ensures Accepted(l.cases[id].attempt.value) <==>
              l.cases[id].state == AwaitingResult || l.cases[id].state == Verified
    ensures !Accepted(l.cases[id].attempt.value) <==> l.cases[id].state == NeedsReview
  {
    hide Inv, Consistent, History, Accepted, Chained;
    assert Consistent(k, l.cases[id], History(l, id)) by { CaseIsOk(k, l, id); }
    AcceptanceDecides(k, l.cases[id], History(l, id));
  }

  lemma CaseIsOk(k: Keys, l: Ledger, id: CaseId)
    requires Inv(k, l) && id in l.cases
    ensures CaseOk(k, l, id)
  {
    hide CaseOk;
  }

  lemma AcceptanceDecides(k: Keys, c: Case, h: seq<Option<EventBody>>)
    requires Consistent(k, c, h) && c.attempt.Some?
    ensures Accepted(c.attempt.value) <==> c.state == AwaitingResult || c.state == Verified
    ensures !Accepted(c.attempt.value) <==> c.state == NeedsReview
  {
    hide Propose, Verify, AttemptGuard, Replay;
    ReplayShape(h);
    if |h| == 3 { ThirdStep(h); }
  }

  /** The third event settles the state by the acceptance it records. */
  lemma ThirdStep(h: seq<Option<EventBody>>)
    requires |h| == 3 && Replay(h).Some?
    ensures h[2].Some? && h[2].value.detail.RetryRecorded?
    ensures var d := h[2].value.detail;
            Replay(h).value == if d.requestStatus == "accepted" && d.requestJobId.Some? && d.requestJobId.value != ""
                               then AwaitingResult else NeedsReview
  {
    ReplayShape(h);
    ReplayShape(h[..2]);
  }
}
