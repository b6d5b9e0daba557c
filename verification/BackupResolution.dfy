/** The decision functions of one backup incident, over evidence that has been parsed: instants are
    integers (microseconds), scopes have passed validation. */
module BackupResolution {
  import opened Common
  import opened EventChain
  import opened Sorting
  import opened TextOrder

  type Time = int

  datatype Scope = Scope(incidentId: string, tenantId: string, subscriptionId: string,
                         resourceGroup: string, vaultName: string, vmName: string)

  datatype Job = Job(id: string, operation: string, status: string, startedAt: Time, errorCode: Option<string>)

  datatype Point = Point(id: string, createdAt: Time)

  datatype Snapshot = Snapshot(scope: Scope, observed: bool, hasItem: bool, accountVerified: bool,
                               jobs: seq<Job>, points: seq<Point>, collectedAt: Time)

  datatype Action = BackupNowCandidate | ManualReview

  datatype Plan = Plan(scope: Scope, action: Action, failedJobId: Option<string>,
                       errorCode: Option<string>, snapshotSha: Digest)

  /** A recorded attempt as parsed. `startedAt` is None when it is not a timestamp with a timezone;
      `approvals` is None when it is not a list of strings. */
  datatype Attempt = Attempt(scope: Scope, action: string, startedAt: Option<Time>, returnCode: int,
                             requestStatus: string, requestJobId: Option<string>,
                             failedJobId: Option<string>, planSha: Option<Digest>,
                             approvals: Option<seq<string>>, mutationAttempted: bool, causeReviewed: bool)

  datatype Outcome =
    | Unknown(reason: string)
    | Checked(passed: bool, newPointIds: seq<string>, completedJobIds: seq<string>)

  datatype BackupError = ScopeMismatch | PlanForbidsRetry | AccountNotVerified | MissingApprovals
                       | StateChanged | InvalidTimestamp

  const APPROVERS: set<string> := {"workload-owner", "backup-operator"}

  predicate IsBackup(job: Job) { "Backup" <= job.operation }

  /** `_latest_backup`: the first of the matching jobs with the greatest start. */
  function LatestBackup(jobs: seq<Job>): (r: Option<Job>) {
    if jobs == [] then None
    else
      var last := jobs[|jobs| - 1];
      var earlier := LatestBackup(jobs[..|jobs| - 1]);
      if IsBackup(last) && (earlier.None? || earlier.value.startedAt < last.startedAt) then Some(last) else earlier
  }

  /** Job `i` is the earliest listed backup job that no backup job started after. */
  ghost predicate IsLatest(jobs: seq<Job>, i: int) {
    && 0 <= i < |jobs| && "Backup" <= jobs[i].operation
    && (forall j :: 0 <= j < i && "Backup" <= jobs[j].operation ==> jobs[j].startedAt < jobs[i].startedAt)
    && (forall j :: i < j < |jobs| && "Backup" <= jobs[j].operation ==> jobs[j].startedAt <= jobs[i].startedAt)
  }

  lemma {:induction false} LatestBackupIsLatest(jobs: seq<Job>)
    ensures LatestBackup(jobs).None? ==> forall i :: 0 <= i < |jobs| ==> !("Backup" <= jobs[i].operation)
    ensures LatestBackup(jobs).Some? ==> exists i :: IsLatest(jobs, i) && jobs[i] == LatestBackup(jobs).value
  {
    if jobs != [] {
      var n := |jobs| - 1;
      var front := jobs[..n];
      LatestBackupIsLatest(front);
      var earlier, r := LatestBackup(front), LatestBackup(jobs);
      assert jobs == front + [jobs[n]];
      hide LatestBackup;
      if earlier.None? {
        LatestAppended(front, jobs[n], -1);
        if r.Some? { assert IsLatest(jobs, n); }
      } else {
        var i :| IsLatest(front, i) && front[i] == earlier.value;
        LatestAppended(front, jobs[n], i);
        assert IsLatest(jobs, if r == Some(jobs[i]) then i else n);
      }
    }
  }

  /** How the latest job moves when one more is listed. */
  lemma LatestAppended(front: seq<Job>, last: Job, i: int)
    requires if i < 0 then forall j :: 0 <= j < |front| ==> !IsBackup(front[j]) else IsLatest(front, i)
    ensures IsBackup(last) && (i >= 0 ==> front[i].startedAt < last.startedAt) ==> IsLatest(front + [last], |front|)
    ensures i >= 0 && !(IsBackup(last) && front[i].startedAt < last.startedAt) ==> IsLatest(front + [last], i)
  {}

  /** `propose`: a retry candidate exactly when observed evidence shows the latest backup job failed. */
  function Propose(sha: Snapshot -> Digest, s: Snapshot): Plan {
    var job := if s.observed && s.hasItem then LatestBackup(s.jobs) else None;
    var failed := job.Some? && job.value.status == "Failed";
    Plan(s.scope, if failed then BackupNowCandidate else ManualReview,
         if failed then Some(job.value.id) else None,
         if job.Some? then job.value.errorCode else None, sha(s))
  }

  /** What `retry_backup` demands before it calls the runner, in the order it demands it. */
  function RetryGuard(sha: Snapshot -> Digest, scope: Scope, plan: Plan, current: Snapshot,
                      approvals: set<string>): Result<(), BackupError> {
    if plan.scope != scope || current.scope != scope then Err(ScopeMismatch)
    else if plan.action != BackupNowCandidate then Err(PlanForbidsRetry)
    else if !current.accountVerified then Err(AccountNotVerified)
    else if !(APPROVERS <= approvals) then Err(MissingApprovals)
    else
      var again := Propose(sha, current);
      if again.action != BackupNowCandidate || again.failedJobId != plan.failedJobId then Err(StateChanged)
      else Ok(())
  }

  /** What came back from the runner: an exit code and, when its output parses to an object with a
      nonempty string under "name", that string. */
  datatype Response = Response(returnCode: int, jobName: Option<string>)

  /** The attempt `retry_backup` builds, with the cause review the operator adds to it. */
  function BuildAttempt(scope: Scope, plan: Plan, approvals: seq<string>, started: Time, r: Response): Attempt {
    Attempt(scope, "backup-now", Some(started), r.returnCode,
            if r.returnCode == 0 then "accepted" else "unknown",
            if r.returnCode == 0 && r.jobName != Some("") then r.jobName else None,
            plan.failedJobId, Some(plan.snapshotSha), Some(approvals), true, true)
  }

  /** The request was accepted and named a job. */
  predicate Accepted(a: Attempt) {
    a.requestStatus == "accepted" && a.requestJobId.Some? && a.requestJobId.value != ""
  }

  predicate IsNewPoint(before: Snapshot, started: Time, p: Point) {
    (forall q :: q in before.points ==> q.id != p.id) && p.createdAt >= started
  }

  predicate IsCompletedRetry(jobId: string, started: Time, j: Job) {
    j.id == jobId && IsBackup(j) && j.status == "Completed" && j.startedAt >= started
  }

  function NewPointIds(before: Snapshot, started: Time, points: seq<Point>): (r: seq<string>)
    ensures forall id :: id in r <==> exists p :: p in points && p.id == id && IsNewPoint(before, started, p)
    ensures r != [] <==> exists p :: p in points && IsNewPoint(before, started, p)
  {
    if points == [] then []
    else
      assert points == [points[0]] + points[1..];
      (if IsNewPoint(before, started, points[0]) then [points[0].id] else [])
      + NewPointIds(before, started, points[1..])
  }

  function CompletedJobIds(jobId: string, started: Time, jobs: seq<Job>): (r: seq<string>)
    ensures r != [] <==> exists j :: j in jobs && IsCompletedRetry(jobId, started, j)
    ensures forall id :: id in r ==> id == jobId
  {
    if jobs == [] then []
    else
      assert jobs == [jobs[0]] + jobs[1..];
      (if IsCompletedRetry(jobId, started, jobs[0]) then [jobs[0].id] else [])
      + CompletedJobIds(jobId, started, jobs[1..])
  }

  /** `verify`: a completed job with the returned id and a recovery point that was not there before,
      both no earlier than the attempt. */
  function Verify(before: Snapshot, after: Snapshot, a: Attempt): Result<Outcome, BackupError> {
    if after.scope != before.scope || a.scope != before.scope then Err(ScopeMismatch)
    else if !before.observed || !after.observed then Ok(Unknown("read-only evidence is incomplete"))
    else if a.requestStatus != "accepted" then Ok(Unknown("backup request acceptance is unknown"))
    else if a.requestJobId.None? || a.requestJobId.value == "" then Ok(Unknown("backup request job ID is unavailable"))
    else if a.startedAt.None? then Err(InvalidTimestamp)
    else
      var started := a.startedAt.value;
      var points := NewPointIds(before, started, after.points);
      var jobs := CompletedJobIds(a.requestJobId.value, started, after.jobs);
      Ok(Checked(points != [] && jobs != [], SortText(points), SortText(jobs)))
  }

  predicate Passed(o: Outcome) { o.Checked? && o.passed }

  /** What a passed verification means, stated on the evidence alone. */
  ghost predicate BackupProven(before: Snapshot, after: Snapshot, a: Attempt) {
    && before.scope == after.scope == a.scope
    && before.observed && after.observed && a.startedAt.Some?
    && a.requestStatus == "accepted" && a.requestJobId.Some? && a.requestJobId.value != ""
    && (exists j :: j in after.jobs && j.id == a.requestJobId.value && "Backup" <= j.operation
                    && j.status == "Completed" && j.startedAt >= a.startedAt.value)
    && (exists p :: p in after.points && p.createdAt >= a.startedAt.value
                    && forall q :: q in before.points ==> q.id != p.id)
  }

  /** `verify` answers "verified_backup" exactly when the evidence proves the backup. */
  lemma VerifyExact(before: Snapshot, after: Snapshot, a: Attempt)
    ensures (Verify(before, after, a).Ok? && Passed(Verify(before, after, a).value)) <==> BackupProven(before, after, a)
  {
    hide SortText;
  }

  /** And then it lists exactly the new points, in order, and the returned job. */
  lemma VerifyListsNewPoints(before: Snapshot, after: Snapshot, a: Attempt)
    requires BackupProven(before, after, a)
    ensures var jobs := Verify(before, after, a).value.completedJobIds;
            forall id :: id in jobs <==> id == a.requestJobId.value
    ensures var ids := Verify(before, after, a).value.newPointIds;
            && Ordered(TextLe, ids)
            && forall id :: id in ids <==>
                 exists p :: p in after.points && p.id == id && IsNewPoint(before, a.startedAt.value, p)
  {
    VerifyExact(before, after, a);
    var points := NewPointIds(before, a.startedAt.value, after.points);
    var jobs := CompletedJobIds(a.requestJobId.value, a.startedAt.value, after.jobs);
    assert jobs[0] in jobs;
    hide IsNewPoint, IsCompletedRetry, NewPointIds, CompletedJobIds, Sort;
    SortKeepsElements(TextLe, points);
    SortKeepsElements(TextLe, jobs);
    TextOrderIsTotal();
    SortOrdered(TextLe, points);
  }

  /** Otherwise it answers "unknown" exactly when there is too little to judge by, or refuses evidence of
      another scope or an attempt without a time. */
  lemma VerifyRefusesExactly(before: Snapshot, after: Snapshot, a: Attempt)
    ensures var r := Verify(before, after, a);
            var named := a.requestStatus == "accepted" && a.requestJobId.Some? && a.requestJobId.value != "";
            && (r == Err(ScopeMismatch) <==> !(before.scope == after.scope == a.scope))
            && (r.Ok? && r.value.Unknown? <==>
                  before.scope == after.scope == a.scope && !(before.observed && after.observed && named))
            && (r == Err(InvalidTimestamp) <==>
                  && before.scope == after.scope == a.scope && before.observed && after.observed && named
                  && a.startedAt.None?)
            && (r.Err? ==> r.error == ScopeMismatch || r.error == InvalidTimestamp)
  {
    hide NewPointIds, CompletedJobIds, SortText;
  }

  /** `propose` names a job exactly when it proposes a retry, and that job is a failed backup job
      of observed evidence that no other backup job started after. */
  lemma CandidateMeansLatestFailed(sha: Snapshot -> Digest, s: Snapshot)
    ensures Propose(sha, s).action == BackupNowCandidate <==>
              s.observed && s.hasItem && exists i :: IsLatest(s.jobs, i) && s.jobs[i].status == "Failed"
    ensures Propose(sha, s).action == BackupNowCandidate ==>
              forall i :: IsLatest(s.jobs, i) ==> Propose(sha, s).failedJobId == Some(s.jobs[i].id)
    ensures Propose(sha, s).failedJobId.Some? <==> Propose(sha, s).action == BackupNowCandidate
  {
    LatestBackupIsLatest(s.jobs);
  }
}
