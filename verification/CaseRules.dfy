/** The rules of the ledger in terms of its inputs alone: which alerts may open a case, what refuses a
    transaction, and that the stored evidence of a case decides its state. */
module CaseRules {
  import opened Common
  import opened EventChain
  import opened BackupResolution
  import opened CaseLedger

  // ---------------------------------------------------------------- which alerts open a case

  lemma LowerIs(s: string)
    ensures |Lower(s)| == |s|
    ensures forall i :: 0 <= i < |s| ==>
              Lower(s)[i] as int == s[i] as int + if 'A' <= s[i] <= 'Z' then 'a' as int - 'A' as int else 0
  {}

  lemma LowerConcat(a: string, b: string)
    ensures Lower(a + b) == Lower(a) + Lower(b)
  {}

  /** The path of a scope's vault, read without regard to case: its words and names in lower case. */
  lemma VaultPathIs(scope: Scope)
    ensures VaultPath(scope)
         == Lower("/subscriptions/") + Lower(scope.subscriptionId) + Lower("/resourceGroups/")
            + Lower(scope.resourceGroup) + Lower("/providers/Microsoft.RecoveryServices/vaults/")
            + Lower(scope.vaultName)
  {
    hide Lower;
    var a, b, c := "/subscriptions/", "/resourceGroups/", "/providers/Microsoft.RecoveryServices/vaults/";
    var s, r, v := scope.subscriptionId, scope.resourceGroup, scope.vaultName;
    LowerConcat(a, s);
    LowerConcat(a + s, b);
    LowerConcat(a + s + b, r);
    LowerConcat(a + s + b + r, c);
    LowerConcat(a + s + b + r + c, v);
  }

  /** Some target is the vault of the scope or lies below it. */
  ghost predicate Reaches(alert: Alert, scope: Scope) {
    && alert.targets.Some?
    && exists t :: t in alert.targets.value && (t == VaultPath(scope) || VaultPath(scope) + "/" <= t)
  }

  /** A fired alert of the common schema, complete, on the vault of the scope. */
  ghost predicate FiredOn(alert: Alert, scope: Scope) {
    && alert.commonSchema && alert.fired
    && alert.alertId.Some? && |alert.alertId.value| <= 512 && alert.firedAt.Some?
    && Reaches(alert, scope)
  }

  /** Each error exactly for its own reason, in this order of precedence. */
  lemma ParseExactly(alert: Alert, scope: Scope)
    ensures ParseAlert(alert, scope) == Err(NotFiredAlert) <==> !(alert.commonSchema && alert.fired)
    ensures ParseAlert(alert, scope) == Err(AlertIdRequired) <==>
              alert.commonSchema && alert.fired && !(alert.alertId.Some? && |alert.alertId.value| <= 512)
    ensures ParseAlert(alert, scope) == Err(FiredAtInvalid) <==>
              && alert.commonSchema && alert.fired && alert.alertId.Some? && |alert.alertId.value| <= 512
              && alert.firedAt.None?
    ensures ParseAlert(alert, scope) == Err(TargetsRequired) <==>
              && alert.commonSchema && alert.fired && alert.alertId.Some? && |alert.alertId.value| <= 512
              && alert.firedAt.Some? && (alert.targets.None? || alert.targets.value == [])
    ensures ParseAlert(alert, scope) == Err(OutsideVault) <==>
              && alert.commonSchema && alert.fired && alert.alertId.Some? && |alert.alertId.value| <= 512
              && alert.firedAt.Some? && alert.targets.Some? && alert.targets.value != [] && !Reaches(alert, scope)
    ensures ParseAlert(alert, scope).Ok? <==> FiredOn(alert, scope)
    ensures FiredOn(alert, scope) ==>
              ParseAlert(alert, scope).value
              == Normalized(alert.alertId.value, alert.firedAt.value, VaultPath(scope), alert.severity)
  {
    hide VaultPath;
  }

  /** The log gained one row: this event of this case. */
  ghost predicate Logged(l: Ledger, later: Ledger, id: CaseId, body: EventBody) {
    && |later.log| == |l.log| + 1 && later.log[..|l.log|] == l.log
    && later.log[|l.log|].caseId == id && later.log[|l.log|].row.event == Complete(body, map[])
  }

  /** An alert is taken in exactly when it is fired on the vault of the scope and is either known there or
      new under a free id; a refused one is refused for its form first, then for its scope. */
  lemma IngestExactly(k: Keys, l: Ledger, version: string, alert: Alert, scope: Scope, newId: CaseId, now: Time)
    ensures var r := Ingest(k, l, version, alert, scope, newId, now);
            && (!FiredOn(alert, scope) ==> r == Err(ParseAlert(alert, scope).error))
            && (FiredOn(alert, scope) ==>
                  var known := CaseFor(l, alert.alertId.value);
                  && (r == Err(DuplicateAlertOtherScope) <==> known.Some? && l.cases[known.value].scope != scope)
                  && (r == Err(CaseIdTaken) <==> known.None? && newId in l.cases)
                  && (r.Ok? && known.Some? ==> r.value == (l, known.value))
                  && (r.Ok? && known.None? ==>
                        && r.value.1 == newId
                        && r.value.0.cases == l.cases[newId := NewCase(alert.alertId.value, version, scope, now)]
                        && Logged(l, r.value.0, newId, EventBody(now, AlertIngested(ParseAlert(alert, scope).value))))
                  && (r.Ok? <==> r != Err(DuplicateAlertOtherScope) && r != Err(CaseIdTaken)))
  {
    ParseExactly(alert, scope);
    hide ParseAlert, FiredOn;
  }

  /** The operation that opened a case: a fired alert on the vault of the case's scope. */
  ghost predicate Opened(ops: seq<Op>, i: int, id: CaseId, c: Case) {
    && 0 <= i < |ops| && ops[i].OpIngest? && ops[i].newId == id
    && FiredOn(ops[i].alert, ops[i].scope)
    && c.alertId == ops[i].alert.alertId.value && c.scope == ops[i].scope
    && c.version == ops[i].version && c.createdAt == ops[i].now
  }

  lemma StepOpens(k: Keys, l: Ledger, op: Op, id: CaseId)
    requires id !in l.cases && id in Step(k, l, op).cases
    ensures Opened([op], 0, id, Step(k, l, op).cases[id])
  {
    hide Ingest, FiredOn, OnCase;
    match op
    case OpIngest(version, alert, scope, newId, now) => IngestExactly(k, l, version, alert, scope, newId, now);
    case OpCase(at, change) => CasesOnly(k, l, at, change);
  }

  lemma CasesOnly(k: Keys, l: Ledger, id: CaseId, op: CaseOp)
    ensures OnCase(k, l, id, op).Ok? ==> OnCase(k, l, id, op).value.cases.Keys == l.cases.Keys
  {
    hide ChangeCase, Link, FinalHash, RowsOf;
  }

  /** Over every run, every case was opened by an operation whose alert was fired on its vault. */
  lemma {:induction false} EveryCaseWasAlerted(k: Keys, l: Ledger, ops: seq<Op>, id: CaseId)
    requires Inv(k, l) && id !in l.cases && id in Run(k, l, ops).cases
    ensures exists i :: Opened(ops, i, id, Run(k, l, ops).cases[id])
    decreases |ops|
  {
    hide Inv, Step, FiredOn, History;
    var m := Step(k, l, ops[0]);
    StepHolds(k, l, ops[0]);
    if id in m.cases {
      StepOpens(k, l, ops[0], id);
      RunHolds(k, m, ops[1..]);
      assert Opened(ops, 0, id, Run(k, l, ops).cases[id]);
    } else {
      EveryCaseWasAlerted(k, m, ops[1..], id);
      var i :| Opened(ops[1..], i, id, Run(k, l, ops).cases[id]);
      assert Opened(ops, i + 1, id, Run(k, l, ops).cases[id]);
    }
  }

  lemma ReachableCaseWasAlerted(k: Keys, ops: seq<Op>, id: CaseId)
    requires id in Run(k, EMPTY, ops).cases
    ensures exists i :: Opened(ops, i, id, Run(k, EMPTY, ops).cases[id])
  {
    ReachableLedger(k, []);
    EveryCaseWasAlerted(k, EMPTY, ops, id);
  }

  // ---------------------------------------------------------------- what the transactions accept

  /** Observed evidence whose latest backup job is `job` and failed. */
  ghost predicate LatestFailed(s: Snapshot, job: string) {
    s.observed && s.hasItem && exists i :: IsLatest(s.jobs, i) && s.jobs[i].status == "Failed" && s.jobs[i].id == job
  }

  lemma ProposesExactly(sha: Snapshot -> Digest, s: Snapshot)
    ensures Propose(sha, s).action == BackupNowCandidate <==> exists job :: LatestFailed(s, job)
    ensures forall job :: LatestFailed(s, job) <==> Propose(sha, s).failedJobId == Some(job)
    ensures Propose(sha, s).scope == s.scope && Propose(sha, s).snapshotSha == sha(s)
    ensures forall i :: s.observed && s.hasItem && IsLatest(s.jobs, i) ==>
              Propose(sha, s).errorCode == s.jobs[i].errorCode
  {
    CandidateMeansLatestFailed(sha, s);
    LatestBackupIsLatest(s.jobs);
    hide LatestBackup;
    if i :| s.observed && s.hasItem && IsLatest(s.jobs, i) && s.jobs[i].status == "Failed" {
      assert LatestFailed(s, s.jobs[i].id);
    }
    forall job | LatestFailed(s, job) ensures Propose(sha, s).failedJobId == Some(job) {
      var i :| IsLatest(s.jobs, i) && s.jobs[i].status == "Failed" && s.jobs[i].id == job;
    }
  }

  /** What lets a retry through to the runner: one scope, a verified account, both approvals, and the
      failure it was planned for still the latest. */
  lemma RetryAllowedExactly(sha: Snapshot -> Digest, scope: Scope, plan: Plan, current: Snapshot,
                            approvals: set<string>)
    ensures var r := RetryGuard(sha, scope, plan, current, approvals);
            && (r == Err(ScopeMismatch) <==> !(plan.scope == scope == current.scope))
            && (r.Ok? <==>
                  && plan.scope == scope == current.scope && plan.action == BackupNowCandidate
                  && current.accountVerified && "workload-owner" in approvals && "backup-operator" in approvals
                  && exists job :: LatestFailed(current, job) && plan.failedJobId == Some(job))
  {
    ProposesExactly(sha, current);
    hide LatestFailed, Propose;
    assert APPROVERS <= approvals <==> "workload-owner" in approvals && "backup-operator" in approvals;
  }

  /** A diagnosis is written once, for evidence of the case's scope; the case then awaits a retry if the
      latest backup job failed, and review otherwise. */
  lemma DiagnosisExactly(k: Keys, c: Case, s: Snapshot, now: Time)
    ensures var r := DiagnoseCase(k, c, s, now);
            && (r == Err(SnapshotScopeMismatch) <==> s.scope != c.scope)
            && (r == Err(AlreadyDiagnosed) <==> s.scope == c.scope && c.state != Received && c.snapshot != Some(s))
            && (r == Ok(Keep) <==> s.scope == c.scope && c.state != Received && c.snapshot == Some(s))
            && (s.scope == c.scope && c.state == Received ==>
                  && r.Ok? && r.value.Write? && r.value.c.snapshot == Some(s) && r.value.c.plan.Some?
                  && (forall job :: LatestFailed(s, job) <==> r.value.c.plan.value.failedJobId == Some(job))
                  && r.value.c.plan.value.snapshotSha == k.snapshotSha(s)
                  && r.value.c == c.(snapshot := Some(s), plan := r.value.c.plan, state := r.value.c.state)
                  && r.value.body == EventBody(now, DiagnosisMade(r.value.c.plan.value.action, k.snapshotSha(s)))
                  && (r.value.c.state == Diagnosed <==> exists job :: LatestFailed(s, job))
                  && (r.value.c.state == NeedsReview <==> !exists job :: LatestFailed(s, job)))
  {
    ProposesExactly(k.snapshotSha, s);
    hide LatestFailed, Propose;
  }

  /** An attempt the ledger may record on a diagnosed case. */
  ghost predicate Reviewed(scope: Scope, plan: Plan, a: Attempt) {
    && a.scope == scope && a.failedJobId == plan.failedJobId && a.planSha == Some(plan.snapshotSha)
    && a.action == "backup-now" && a.mutationAttempted && a.causeReviewed
    && a.approvals.Some? && "workload-owner" in a.approvals.value && "backup-operator" in a.approvals.value
  }

  /** The request was accepted and named a job. */
  ghost predicate NamedJob(a: Attempt) {
    a.requestStatus == "accepted" && a.requestJobId.Some? && a.requestJobId.value != ""
  }

  /** An attempt is recorded once, on a diagnosed case, when it is bound to the diagnosis, reviewed and
      approved by both; what the runner answered decides where the case goes. */
  lemma AttemptExactly(c: Case, a: Attempt, now: Time)
    requires c.state == Diagnosed ==> c.plan.Some?
    ensures var r := AttemptCase(c, a, now);
            && (r == Err(NotAwaitingRetry) <==> c.state != Diagnosed && c.attempt != Some(a))
            && (r == Ok(Keep) <==> c.state != Diagnosed && c.attempt == Some(a))
            && (c.state == Diagnosed ==>
                  && (r.Ok? <==> Reviewed(c.scope, c.plan.value, a))
                  && (r == Err(AttemptScopeMismatch) <==> a.scope != c.scope)
                  && (r.Ok? ==>
                        && r.value.Write?
                        && r.value.body == EventBody(now, RetryRecorded(a.requestStatus, a.requestJobId))
                        && r.value.c == c.(attempt := Some(a),
                                           state := if NamedJob(a) then AwaitingResult else NeedsReview)))
  {
    if c.state == Diagnosed && a.approvals.Some? {
      var given := set r | r in a.approvals.value;
      assert APPROVERS <= given <==> "workload-owner" in given && "backup-operator" in given;
    }
  }

  /** A verification is recorded for new evidence of the case's scope and account; the case is verified
      exactly when that evidence proves the backup, and is closed from then on. */
  lemma VerificationExactly(c: Case, after: Snapshot, now: Time)
    requires c.state == AwaitingResult ==>
               && c.snapshot.Some? && c.attempt.Some? && NamedJob(c.attempt.value)
               && c.snapshot.value.scope == c.scope == c.attempt.value.scope
    ensures var r := VerifyCase(c, after, now);
            var awaited := c.state == AwaitingResult || c.state == Verified;
            var trusted := after.scope == c.scope && after.accountVerified;
            && (r == Err(NotAwaitingVerification) <==> !awaited)
            && (r == Err(AfterScopeMismatch) <==> awaited && after.scope != c.scope)
            && (r == Err(AfterAccountNotVerified) <==> awaited && after.scope == c.scope && !after.accountVerified)
            && (r == Ok(Keep) <==> awaited && trusted && c.after == Some(after))
            && (r == Err(CaseClosed) <==> c.state == Verified && trusted && c.after != Some(after))
            && (c.state == AwaitingResult && trusted && c.after != Some(after) ==>
                  && (r.Err? <==> c.snapshot.value.observed && after.observed && c.attempt.value.startedAt.None?)
                  && (r.Ok? ==>
                        && r.value.Write? && r.value.c.outcome.Some?
                        && r.value.c
                           == c.(after := Some(after), outcome := r.value.c.outcome, state := r.value.c.state)
                        && (r.value.c.state == Verified <==> BackupProven(c.snapshot.value, after, c.attempt.value))
                        && (r.value.c.state != Verified ==> r.value.c.state == AwaitingResult)
                        && r.value.body.at == now && r.value.body.detail.VerificationRecorded?
                        && (r.value.body.detail.status == VerifiedBackup <==> r.value.c.state == Verified)))
  {
    if c.state == AwaitingResult {
      VerifyExact(c.snapshot.value, after, c.attempt.value);
      VerifyRefusesExactly(c.snapshot.value, after, c.attempt.value);
    }
    hide BackupProven, Verify;
  }

  /** The stored evidence of a case in a reachable ledger, and nothing else, decides its state. */
  lemma EvidenceDecidesState(k: Keys, l: Ledger, id: CaseId)
    requires Inv(k, l) && id in l.cases
    ensures var c := l.cases[id];
            && (c.state == Received <==> c.snapshot.None?)
            && (c.state == Diagnosed <==>
                  c.snapshot.Some? && c.attempt.None? && exists job :: LatestFailed(c.snapshot.value, job))
            && (c.state == NeedsReview <==>
                  c.snapshot.Some? && if c.attempt.Some? then !NamedJob(c.attempt.value)
                                      else !exists job :: LatestFailed(c.snapshot.value, job))
            && (c.state == Verified <==>
                  && c.snapshot.Some? && c.attempt.Some? && c.after.Some?
                  && BackupProven(c.snapshot.value, c.after.value, c.attempt.value))
            && (c.plan.Some? <==> c.snapshot.Some?)
            && (c.state == AwaitingResult || c.state == Verified ==>
                  && c.snapshot.Some? && c.attempt.Some? && NamedJob(c.attempt.value)
                  && c.snapshot.value.scope == c.scope == c.attempt.value.scope)
  {
    hide Inv, History, LatestFailed, BackupProven;
    CaseIsOk(k, l, id);
    var c, h := l.cases[id], History(l, id);
    if c.snapshot.Some? { ProposesExactly(k.snapshotSha, c.snapshot.value); }
    EvidenceOf(k, c, h);
    hide Consistent;
  }

  lemma EvidenceOf(k: Keys, c: Case, h: seq<Option<EventBody>>)
    requires Consistent(k, c, h)
    ensures c.state == Received <==> c.snapshot.None?
    ensures c.snapshot.Some? <==> c.plan.Some?
    ensures c.plan.Some? ==> c.plan.value == Propose(k.snapshotSha, c.snapshot.value)
    ensures c.state == Diagnosed <==> c.plan.Some? && c.attempt.None? && c.plan.value.action == BackupNowCandidate
    ensures c.state == NeedsReview <==>
              c.plan.Some? && if c.attempt.Some? then !NamedJob(c.attempt.value)
                              else c.plan.value.action != BackupNowCandidate
    ensures c.state == Verified <==>
              && c.snapshot.Some? && c.attempt.Some? && c.after.Some?
              && BackupProven(c.snapshot.value, c.after.value, c.attempt.value)
    ensures c.state == AwaitingResult || c.state == Verified ==>
              && c.snapshot.Some? && c.attempt.Some? && NamedJob(c.attempt.value)
              && c.snapshot.value.scope == c.scope == c.attempt.value.scope
  {
    hide Propose, Verify, Replay, BackupProven;
    ReplayShape(h);
    Columns(k, c, h);
    if |h| == 2 { SecondStep(h); }
    if c.attempt.Some? { AcceptanceDecides(k, c, h); }
    if c.snapshot.Some? && c.attempt.Some? && c.after.Some? {
      VerifyExact(c.snapshot.value, c.after.value, c.attempt.value);
    }
  }

  /** The second event settles the state by the action it records. */
  lemma SecondStep(h: seq<Option<EventBody>>)
    requires |h| == 2 && Replay(h).Some?
    ensures h[1].Some? && h[1].value.detail.DiagnosisMade?
    ensures Replay(h).value == if h[1].value.detail.action == BackupNowCandidate then Diagnosed else NeedsReview
  {
    ReplayShape(h);
    ReplayShape(h[..1]);
  }
}
