/** The condition on drill timelines is not idle: a run from the empty ledger verifies a case whose after
    snapshot lists one point id twice, and a drill is then attached out of order. */
module EarlyTwin {
  import opened Common
  import opened EventChain
  import opened Sorting
  import opened TextOrder
  import opened BackupResolution
  import opened CaseLedger
  import opened RestoreDrill

  const CASE: CaseId := "case-1"

  function FiredAlert(scope: Scope): Alert {
    Alert(true, true, Some("alert-1"), Some(0), Some([VaultPath(scope)]), None)
  }

  function FailedBackup(scope: Scope): Snapshot {
    Snapshot(scope, true, true, true, [Job("job-1", "Backup", "Failed", 1, None)], [], 2)
  }

  function Retried(k: Keys, scope: Scope): Attempt {
    Attempt(scope, "backup-now", Some(10), 0, "accepted", Some("job-2"), Some("job-1"),
            Some(k.snapshotSha(FailedBackup(scope))), Some(["backup-operator", "workload-owner"]), true, true)
  }

  /** The point "point-1" is listed twice: once from before the attempt at 10, once from after. */
  function TwinListed(scope: Scope): Snapshot {
    Snapshot(scope, true, true, true, [Job("job-2", "Backup", "Completed", 11, None)],
             [Point("point-1", 5), Point("point-1", 12)], 20)
  }

  function TwinRun(k: Keys, scope: Scope): (ops: seq<Op>)
    ensures |ops| == 4
  {
    [OpIngest("1", FiredAlert(scope), scope, CASE, 0), OpCase(CASE, DiagnoseOp(FailedBackup(scope), 3)),
     OpCase(CASE, AttemptOp(Retried(k, scope), 12)), OpCase(CASE, VerifyOp(TwinListed(scope), 21))]
  }

  ghost predicate HasCase(l: Ledger, c: Case) { CASE in l.cases && l.cases[CASE] == c }

  function Opened(scope: Scope): Case { NewCase("alert-1", "1", scope, 0) }

  function Proposed(k: Keys, scope: Scope): Case {
    Opened(scope).(state := Diagnosed, snapshot := Some(FailedBackup(scope)),
                   plan := Some(Plan(scope, BackupNowCandidate, Some("job-1"), None,
                                     k.snapshotSha(FailedBackup(scope)))))
  }

  function Awaiting(k: Keys, scope: Scope): Case {
    Proposed(k, scope).(state := AwaitingResult, attempt := Some(Retried(k, scope)))
  }

  function Done(k: Keys, scope: Scope): Case {
    Awaiting(k, scope).(state := Verified, after := Some(TwinListed(scope)),
                        outcome := Some(Checked(true, ["point-1"], ["job-2"])))
  }

  lemma Opens(k: Keys, scope: Scope)
    ensures HasCase(Step(k, EMPTY, TwinRun(k, scope)[0]), Opened(scope))
  {
    assert VaultPath(scope) in [VaultPath(scope)];
    hide VaultPath;
  }

  lemma Diagnoses(k: Keys, scope: Scope, l: Ledger)
    requires HasCase(l, Opened(scope))
    ensures HasCase(Step(k, l, TwinRun(k, scope)[1]), Proposed(k, scope))
  {
    var jobs := FailedBackup(scope).jobs;
    assert jobs[..0] == [] && LatestBackup(jobs[..0]) == None;
    assert LatestBackup(jobs) == Some(jobs[0]);
  }

  lemma Attempts(k: Keys, scope: Scope, l: Ledger)
    requires HasCase(l, Proposed(k, scope))
    ensures HasCase(Step(k, l, TwinRun(k, scope)[2]), Awaiting(k, scope))
  {
    var approvals := Retried(k, scope).approvals.value;
    assert approvals[0] == "backup-operator" && approvals[1] == "workload-owner";
    assert AttemptGuard(scope, Proposed(k, scope).plan.value, Retried(k, scope)).Ok?;
  }

  lemma TwinIsNew(scope: Scope)
    ensures NewPointIds(FailedBackup(scope), 10, TwinListed(scope).points) == ["point-1"]
    ensures CompletedJobIds("job-2", 10, TwinListed(scope).jobs) == ["job-2"]
  {
    var points, jobs := TwinListed(scope).points, TwinListed(scope).jobs;
    assert points[1..] == [points[1]] && points[1..][1..] == [];
    assert NewPointIds(FailedBackup(scope), 10, points[1..]) == ["point-1"];
    assert jobs[1..] == [] && CompletedJobIds("job-2", 10, jobs[1..]) == [];
  }

  lemma SortedAlone(id: string)
    ensures SortText([id]) == [id]
  {
    assert [id][1..] == [] && Sort(TextLe, []) == [];
  }

  lemma Verifies(k: Keys, scope: Scope, l: Ledger)
    requires HasCase(l, Awaiting(k, scope))
    ensures HasCase(Step(k, l, TwinRun(k, scope)[3]), Done(k, scope))
  {
    hide NewPointIds, CompletedJobIds, SortText;
    TwinIsNew(scope);
    SortedAlone("point-1");
    SortedAlone("job-2");
    var outcome := Checked(true, ["point-1"], ["job-2"]);
    assert Verify(FailedBackup(scope), TwinListed(scope), Retried(k, scope)) == Ok(outcome);
  }

  /** The same four transactions, then the drill that takes the older twin for the new point. */
  function DrillOn(k: Keys, scope: Scope, contract: Contract, h: seq<Option<EventBody>>): Drill {
    var (e, p) := EarliestDrill(contract, Done(k, scope), h, TwinListed(scope).points[0]);
    Drill(CASE, contract, e, p)
  }

  ghost function After(k: Keys, scope: Scope, n: nat): Ledger
    requires n <= 4
  {
    if n == 0 then EMPTY else Step(k, After(k, scope, n - 1), TwinRun(k, scope)[n - 1])
  }

  lemma {:induction false} ReachedBySteps(k: Keys, scope: Scope, n: nat)
    requires n <= 4
    ensures Inv(k, After(k, scope, n))
  {
    hide Inv, Step, TwinRun;
    if n == 0 { ReachableLedger(k, []); } else {
      ReachedBySteps(k, scope, n - 1);
      StepHolds(k, After(k, scope, n - 1), TwinRun(k, scope)[n - 1]);
    }
  }

  lemma AfterNext(k: Keys, scope: Scope, n: nat)
    requires n < 4
    ensures After(k, scope, n + 1) == Step(k, After(k, scope, n), TwinRun(k, scope)[n])
  {}

  lemma CaseIsDone(k: Keys, scope: Scope)
    ensures HasCase(After(k, scope, 4), Done(k, scope))
  {
    hide Step, HasCase, Done, Awaiting, Proposed, Opened, TwinRun;
    Opens(k, scope);
    AfterNext(k, scope, 0);
    AfterNext(k, scope, 1);
    AfterNext(k, scope, 2);
    AfterNext(k, scope, 3);
    assert After(k, scope, 0) == EMPTY;
    Diagnoses(k, scope, After(k, scope, 1));
    Attempts(k, scope, After(k, scope, 2));
    Verifies(k, scope, After(k, scope, 3));
  }

  ghost function Steps(k: Keys, scope: Scope, contract: Contract): seq<DrillStep> {
    var run := TwinRun(k, scope);
    [Elsewhere(run[0]), Elsewhere(run[1]), Elsewhere(run[2]), Elsewhere(run[3]),
     Check(DrillOn(k, scope, contract, History(After(k, scope, 4), CASE))), Insert(0)]
  }

  lemma OneElsewhere(sha: Source -> Digest, k: Keys, scope: Scope, n: nat, rest: seq<DrillStep>)
    requires n < 4
    ensures DrillRun(sha, k, DrillSystem(After(k, scope, n), [], map[]), [Elsewhere(TwinRun(k, scope)[n])] + rest)
         == DrillRun(sha, k, DrillSystem(After(k, scope, n + 1), [], map[]), rest)
  {
    hide After, TwinRun, Step;
    AfterNext(k, scope, n);
    assert ([Elsewhere(TwinRun(k, scope)[n])] + rest)[1..] == rest;
  }

  lemma CheckAndInsert(sha: Source -> Digest, k: Keys, s: DrillSystem, d: Drill)
    ensures DrillRun(sha, k, s, [Check(d), Insert(0)]) == DrillNext(sha, k, DrillNext(sha, k, s, Check(d)), Insert(0))
  {
    hide DrillNext;
    assert [Check(d), Insert(0)][1..] == [Insert(0)] && [Insert(0)][1..] == [];
    assert DrillRun(sha, k, DrillNext(sha, k, DrillNext(sha, k, s, Check(d)), Insert(0)), [])
        == DrillNext(sha, k, DrillNext(sha, k, s, Check(d)), Insert(0));
  }

  lemma StepsUnfold(sha: Source -> Digest, k: Keys, scope: Scope, contract: Contract)
    ensures var last := DrillOn(k, scope, contract, History(After(k, scope, 4), CASE));
            DrillRun(sha, k, DrillSystem(EMPTY, [], map[]), Steps(k, scope, contract))
            == DrillNext(sha, k, DrillNext(sha, k, DrillSystem(After(k, scope, 4), [], map[]), Check(last)), Insert(0))
  {
    hide DrillRun, DrillNext, Step, History, DrillOn, TwinRun;
    var run, d := TwinRun(k, scope), DrillOn(k, scope, contract, History(After(k, scope, 4), CASE));
    var tail := [Check(d), Insert(0)];
    var from3 := [Elsewhere(run[3])] + tail;
    var from2 := [Elsewhere(run[2])] + from3;
    var from1 := [Elsewhere(run[1])] + from2;
    assert Steps(k, scope, contract) == [Elsewhere(run[0])] + from1;
    assert After(k, scope, 0) == EMPTY;
    hide After;
    OneElsewhere(sha, k, scope, 0, from1);
    OneElsewhere(sha, k, scope, 1, from2);
    OneElsewhere(sha, k, scope, 2, from3);
    OneElsewhere(sha, k, scope, 3, tail);
    CheckAndInsert(sha, k, DrillSystem(After(k, scope, 4), [], map[]), d);
  }

  /** For every scope and contract for it, a run from nothing attaches a drill that is out of order. */
  lemma OutOfOrderDrillIsReachable(sha: Source -> Digest, k: Keys, scope: Scope, contract: Contract)
    requires contract.scope == scope
    ensures var s := DrillRun(sha, k, DrillSystem(EMPTY, [], map[]), Steps(k, scope, contract));
            && |s.accepted| == 1 && CASE in s.ledger.cases && |s.table| == 1
            && !Timeline(s.ledger.cases[CASE], History(s.ledger, CASE), s.accepted[0].restore, s.accepted[0].probe)
  {
    hide Step, History, DrillRun, Attach, Timeline, Steps, After, Inv, VerifiedOk;
    StepsUnfold(sha, k, scope, contract);
    CaseIsDone(k, scope);
    ReachedBySteps(k, scope, 4);
    var l := After(k, scope, 4);
    VerifiedIsOk(k, l, CASE);
    TwinIsOld(sha, k, scope, contract, History(l, CASE));
  }

  lemma TwinIsOld(sha: Source -> Digest, k: Keys, scope: Scope, contract: Contract, h: seq<Option<EventBody>>)
    requires contract.scope == scope && VerifiedOk(k, Done(k, scope), h)
    ensures var d := DrillOn(k, scope, contract, h);
            && Attach(sha, Done(k, scope), h, contract, d.restore, d.probe).Ok?
            && !Timeline(Done(k, scope), h, d.restore, d.probe)
  {
    hide Attach, Timeline, VerifiedOk, EarliestDrill;
    EarlyTwinIsAccepted(sha, k, Done(k, scope), h, TwinListed(scope).points[0], contract);
  }
}
