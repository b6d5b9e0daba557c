/** Restore drills: how one is judged, when it may be attached to a case, and what every attached
    drill therefore shows about the order of events. Instants are microseconds. */
module RestoreDrill {
  import opened Common
  import opened EventChain
  import opened BackupResolution
  import opened CaseLedger

  datatype Contract = Contract(scope: Scope, workloadId: string, environmentId: string,
                               rtoMinutes: nat, rpoMinutes: nat, probeUrl: string)

  /** Timestamps are None when they do not parse to an instant with a timezone. */
  datatype Restore = Restore(scope: Scope, environmentId: string, isolated: bool, restoreJobId: Option<string>,
                             startedAt: Option<Time>, restoredAt: Option<Time>, recoveryPointAt: Option<Time>,
                             cleanupAt: Option<Time>, cleanupConfirmed: bool)

  datatype Probe = Probe(checkedAt: Option<Time>, url: string, passed: Option<bool>)

  datatype Report = Report(scope: Scope, passed: bool, elapsedSeconds: int, actualRto: Option<int>,
                           actualRpo: int, checkedAt: Time, sourceSha: Digest)

  datatype DrillError =
    | RestoreScopeMismatch | EnvironmentMismatch | NotIsolated | RestoreJobRequired | TimestampRequired
    | NotOrdered | ProbeMismatch | CleanupNotConfirmed | BackupNotVerified | CaseScopeMismatch
    | PredatesVerification | NotANewPoint

  type Source = (Contract, Restore, Probe)

  const SECOND: int := 1_000_000
  const MINUTE: int := 60_000_000

  /** `math.ceil` of a duration in seconds. */
  function CeilSeconds(us: int): int { (us + SECOND - 1) / SECOND }

  function Evaluate(sha: Source -> Digest, c: Contract, e: Restore, p: Probe): Result<Report, DrillError> {
    if e.scope != c.scope then Err(RestoreScopeMismatch)
    else if e.environmentId != c.environmentId then Err(EnvironmentMismatch)
    else if !e.isolated then Err(NotIsolated)
    else if e.restoreJobId.None? || e.restoreJobId.value == "" then Err(RestoreJobRequired)
    else if e.startedAt.None? || e.restoredAt.None? || e.recoveryPointAt.None? || p.checkedAt.None? || e.cleanupAt.None?
      then Err(TimestampRequired)
    else if !(e.recoveryPointAt.value <= e.startedAt.value <= e.restoredAt.value <= p.checkedAt.value
              <= e.cleanupAt.value)
      then Err(NotOrdered)
    else if p.url != c.probeUrl || p.passed.None? then Err(ProbeMismatch)
    else if !e.cleanupConfirmed then Err(CleanupNotConfirmed)
    else
      var rto := CeilSeconds(p.checkedAt.value - e.startedAt.value);
      var rpo := CeilSeconds(e.startedAt.value - e.recoveryPointAt.value);
      Ok(Report(c.scope, p.passed.value && rto <= c.rtoMinutes * 60 && rpo <= c.rpoMinutes * 60, rto,
                if p.passed.value then Some(rto) else None, rpo, p.checkedAt.value, sha((c, e, p))))
  }

  /** Rounding a duration up to whole seconds never changes a comparison with a whole number of
      minutes: a fraction of a second cannot make a budget pass, nor fail. */
  lemma CeilingDecidesExactly(us: int, minutes: int)
    ensures CeilSeconds(us) <= minutes * 60 <==> us <= minutes * MINUTE
  {
    var q := CeilSeconds(us);
    assert q * SECOND - SECOND < us <= q * SECOND;
  }

  /** A drill passes exactly when the probe passed and both unrounded durations are in budget. */
  lemma PassedMeansInBudget(sha: Source -> Digest, c: Contract, e: Restore, p: Probe)
    requires Evaluate(sha, c, e, p).Ok?
    ensures Evaluate(sha, c, e, p).value.passed <==>
              p.passed.value && p.checkedAt.value - e.startedAt.value <= c.rtoMinutes * 60_000_000
              && e.startedAt.value - e.recoveryPointAt.value <= c.rpoMinutes * 60_000_000
  {
    CeilingDecidesExactly(p.checkedAt.value - e.startedAt.value, c.rtoMinutes);
    CeilingDecidesExactly(e.startedAt.value - e.recoveryPointAt.value, c.rpoMinutes);
  }

  /** The least whole number of seconds that covers a duration. */
  ghost predicate Covers(seconds: int, us: int) {
    us <= seconds * 1_000_000 && forall n :: us <= n * 1_000_000 ==> seconds <= n
  }

  lemma CeilingCovers(us: int)
    ensures Covers(CeilSeconds(us), us)
  {
    var q := CeilSeconds(us);
    assert q * SECOND - SECOND < us <= q * SECOND;
  }

  /** Every timestamp is there, in the order of a drill. */
  ghost predicate InOrder(e: Restore, p: Probe) {
    && e.recoveryPointAt.Some? && e.startedAt.Some? && e.restoredAt.Some? && p.checkedAt.Some? && e.cleanupAt.Some?
    && e.recoveryPointAt.value <= e.startedAt.value <= e.restoredAt.value <= p.checkedAt.value <= e.cleanupAt.value
  }

  /** A drill is judged exactly when it is isolated, of its contract, in order and cleaned up. The report then
      gives the time to the probe and the age of the recovery point in whole seconds, rounded up; the former
      counts as the recovery time exactly when the probe passed. */
  lemma ReportExactly(sha: Source -> Digest, c: Contract, e: Restore, p: Probe)
    ensures Evaluate(sha, c, e, p).Ok? <==>
              && e.scope == c.scope && e.environmentId == c.environmentId && e.isolated
              && e.restoreJobId.Some? && e.restoreJobId.value != "" && InOrder(e, p)
              && p.url == c.probeUrl && p.passed.Some? && e.cleanupConfirmed
    ensures Evaluate(sha, c, e, p).Ok? ==>
              var r := Evaluate(sha, c, e, p).value;
              && Covers(r.elapsedSeconds, p.checkedAt.value - e.startedAt.value)
              && Covers(r.actualRpo, e.startedAt.value - e.recoveryPointAt.value)
              && r.actualRto == (if p.passed.value then Some(r.elapsedSeconds) else None)
              && r.scope == c.scope && r.checkedAt == p.checkedAt.value && r.sourceSha == sha((c, e, p))
  {
    hide CeilSeconds, Covers;
    if InOrder(e, p) {
      CeilingCovers(p.checkedAt.value - e.startedAt.value);
      CeilingCovers(e.startedAt.value - e.recoveryPointAt.value);
    }
  }

  /** And each refusal has its own reason, in this order. */
  lemma RefusedExactly(sha: Source -> Digest, c: Contract, e: Restore, p: Probe)
    ensures var r := Evaluate(sha, c, e, p); var same := e.scope == c.scope && e.environmentId == c.environmentId;
            var job := same && e.isolated && e.restoreJobId.Some? && e.restoreJobId.value != "";
            && (r == Err(RestoreScopeMismatch) <==> e.scope != c.scope)
            && (r == Err(EnvironmentMismatch) <==> e.scope == c.scope && !same)
            && (r == Err(NotIsolated) <==> same && !e.isolated)
            && (r == Err(RestoreJobRequired) <==> same && e.isolated && !job)
            && (r == Err(TimestampRequired) || r == Err(NotOrdered) <==> job && !InOrder(e, p))
            && (r == Err(ProbeMismatch) <==> job && InOrder(e, p) && !(p.url == c.probeUrl && p.passed.Some?))
            && (r == Err(CleanupNotConfirmed) <==>
                  job && InOrder(e, p) && p.url == c.probeUrl && p.passed.Some? && !e.cleanupConfirmed)
  {
    hide CeilSeconds;
  }

  // ---------------------------------------------------------------- attaching to a case

  /** When the latest verification was recorded. */
  function LastVerification(h: seq<Option<EventBody>>): Option<Time> {
    if h == [] then None
    else
      var last := h[|h| - 1];
      if last.Some? && last.value.detail.VerificationRecorded? then Some(last.value.at)
      else LastVerification(h[..|h| - 1])
  }

  predicate UsesNewPoint(c: Case, at: Time)
    requires c.outcome.Some? && c.outcome.value.Checked? && c.after.Some?
  {
    exists p :: p in c.after.value.points && p.id in c.outcome.value.newPointIds && p.createdAt == at
  }

  /** The checks of `attach_drill` on a case and its history. */
  function Attach(sha: Source -> Digest, c: Case, h: seq<Option<EventBody>>, contract: Contract, e: Restore, p: Probe)
    : Result<Report, DrillError>
  {
    if c.state != Verified || c.outcome.None? || !Passed(c.outcome.value) || c.after.None? then Err(BackupNotVerified)
    else
      match Evaluate(sha, contract, e, p)
      case Err(error) => Err(error)
      case Ok(report) =>
        if report.scope != c.scope then Err(CaseScopeMismatch)
        else if LastVerification(h).None? || report.checkedAt < LastVerification(h).value then Err(PredatesVerification)
        else if !UsesNewPoint(c, e.recoveryPointAt.value) then Err(NotANewPoint)
        else Ok(report)
  }

  predicate IsVerification(e: Option<EventBody>) { e.Some? && e.value.detail.VerificationRecorded? }

  /** Event `i` is the last verification. */
  ghost predicate LastAt(h: seq<Option<EventBody>>, i: int) {
    0 <= i < |h| && IsVerification(h[i]) && forall j :: i < j < |h| ==> !IsVerification(h[j])
  }

  /** The time of the last verification event. */
  lemma {:induction false} LastVerificationIs(h: seq<Option<EventBody>>)
    ensures LastVerification(h).None? <==> forall i :: 0 <= i < |h| ==> !IsVerification(h[i])
    ensures LastVerification(h).Some? ==>
              exists i :: LastAt(h, i) && h[i].value.at == LastVerification(h).value
  {
    if h != [] {
      var front, n := h[..|h| - 1], |h| - 1;
      LastVerificationIs(front);
      assert forall i :: 0 <= i < n ==> front[i] == h[i];
      if IsVerification(h[n]) {
        assert LastAt(h, n);
      } else if LastVerification(front).Some? {
        var i :| LastAt(front, i) && front[i].value.at == LastVerification(front).value;
        assert LastAt(h, i);
      }
    }
  }

  /** A drill is attached exactly when the case is verified, the drill is judged, of the case's scope, probed no
      earlier than the verification and restored from a point listed under a new id. */
  lemma AttachExactly(sha: Source -> Digest, c: Case, h: seq<Option<EventBody>>, contract: Contract, e: Restore,
                      p: Probe)
    ensures var r := Attach(sha, c, h, contract, e, p); var judged := Evaluate(sha, contract, e, p);
            && (r.Ok? ==> r == judged)
            && (r == Err(BackupNotVerified) <==>
                  !(c.state == Verified && c.outcome.Some? && c.outcome.value.Checked? && c.outcome.value.passed
                    && c.after.Some?))
            && (r.Ok? <==>
                  && r != Err(BackupNotVerified) && judged.Ok? && contract.scope == c.scope
                  && LastVerification(h).Some? && LastVerification(h).value <= p.checkedAt.value
                  && exists q :: q in c.after.value.points && q.id in c.outcome.value.newPointIds
                                 && q.createdAt == e.recoveryPointAt.value)
  {
    ReportExactly(sha, contract, e, p);
    hide CeilSeconds, Covers, LastVerification;
  }

  /** A verified case: the columns the statements below speak of are there. */
  ghost predicate VerifiedOk(k: Keys, c: Case, h: seq<Option<EventBody>>) {
    && c.state == Verified && Consistent(k, c, h)
    && c.snapshot.Some? && c.attempt.Some? && c.attempt.value.startedAt.Some? && c.after.Some?
    && c.outcome.Some? && Passed(c.outcome.value)
    && (forall id :: id in c.outcome.value.newPointIds <==>
          exists p :: p in c.after.value.points && p.id == id
                      && IsNewPoint(c.snapshot.value, c.attempt.value.startedAt.value, p))
    && |h| >= 4 && h[|h| - 1].Some? && h[|h| - 1].value.detail == VerificationRecorded(VerifiedBackup)
  }

  lemma VerifiedIsOk(k: Keys, l: Ledger, id: CaseId)
    requires Inv(k, l) && id in l.cases && l.cases[id].state == Verified
    ensures VerifiedOk(k, l.cases[id], History(l, id))
  {
    hide Inv, Consistent, Verify, IsNewPoint, History, APPROVERS, BackupProven, IsLatest;
    var c := l.cases[id];
    VerifiedCase(k, l, id);
    NewIdsAre(c.snapshot.value, c.after.value, c.attempt.value);
    ConsistentCase(k, l, id);
    HistoryLength(k, c, History(l, id));
  }

  lemma ConsistentCase(k: Keys, l: Ledger, id: CaseId)
    requires Inv(k, l) && id in l.cases
    ensures Consistent(k, l.cases[id], History(l, id))
  {
    hide Consistent, History;
    assert CaseOk(k, l, id);
  }

  lemma NewIdsAre(before: Snapshot, after: Snapshot, a: Attempt)
    requires BackupProven(before, after, a)
    ensures a.startedAt.Some? && Verify(before, after, a).Ok? && Verify(before, after, a).value.Checked?
    ensures forall id :: id in Verify(before, after, a).value.newPointIds <==>
              exists p :: p in after.points && p.id == id && IsNewPoint(before, a.startedAt.value, p)
  {
    VerifyExact(before, after, a);
    VerifyListsNewPoints(before, after, a);
  }

  lemma HistoryLength(k: Keys, c: Case, h: seq<Option<EventBody>>)
    requires Consistent(k, c, h) && c.state == Verified
    ensures |h| >= 4
  {
    Columns(k, c, h);
  }

  /** No point that shares its id with a new point is older than the attempt. */
  ghost predicate NoEarlyTwin(c: Case)
    requires c.outcome.Some? && c.outcome.value.Checked? && c.after.Some?
    requires c.attempt.Some? && c.attempt.value.startedAt.Some?
  {
    forall p :: p in c.after.value.points && p.id in c.outcome.value.newPointIds ==>
      p.createdAt >= c.attempt.value.startedAt.value
  }

  ghost predicate UniqueIds(points: seq<Point>) {
    forall p, q :: p in points && q in points && p.id == q.id ==> p == q
  }

  lemma UniqueIdsHaveNoTwins(k: Keys, c: Case, h: seq<Option<EventBody>>)
    requires VerifiedOk(k, c, h) && UniqueIds(c.after.value.points)
    ensures NoEarlyTwin(c)
  {
    hide Consistent;
  }

  /** What an accepted drill shows, given the case it was accepted for. */
  ghost predicate Timeline(c: Case, h: seq<Option<EventBody>>, e: Restore, p: Probe) {
    && c.attempt.Some? && c.attempt.value.startedAt.Some? && LastVerification(h).Some?
    && e.recoveryPointAt.Some? && e.startedAt.Some? && e.restoredAt.Some? && p.checkedAt.Some? && e.cleanupAt.Some?
    && c.attempt.value.startedAt.value <= e.recoveryPointAt.value <= e.startedAt.value <= e.restoredAt.value
         <= p.checkedAt.value <= e.cleanupAt.value
    && LastVerification(h).value <= p.checkedAt.value
  }

  lemma AttachedTimeline(sha: Source -> Digest, k: Keys, c: Case, h: seq<Option<EventBody>>, contract: Contract,
                         e: Restore, p: Probe)
    requires VerifiedOk(k, c, h) && NoEarlyTwin(c) && Attach(sha, c, h, contract, e, p).Ok?
    ensures Timeline(c, h, e, p)
  {
    hide Consistent, LastVerification;
  }

  /** A drill under the contract on the point `q`, run as early as the case allows. */
  function EarliestDrill(contract: Contract, c: Case, h: seq<Option<EventBody>>, q: Point): (Restore, Probe) {
    var at := q.createdAt;
    var v := LastVerification(h);
    var checked := if v.Some? && v.value > at then v.value else at;
    (Restore(contract.scope, contract.environmentId, true, Some("job"), Some(at), Some(at), Some(at),
             Some(checked), true),
     Probe(Some(checked), contract.probeUrl, Some(true)))
  }

  /** Under any contract for the case, an older twin of a new point gives a drill that is accepted out of
      order. */
  lemma EarlyTwinIsAccepted(sha: Source -> Digest, k: Keys, c: Case, h: seq<Option<EventBody>>, q: Point,
                            contract: Contract)
    requires VerifiedOk(k, c, h) && q in c.after.value.points && q.id in c.outcome.value.newPointIds
    requires q.createdAt < c.attempt.value.startedAt.value && contract.scope == c.scope
    ensures var (e, p) := EarliestDrill(contract, c, h, q);
            Attach(sha, c, h, contract, e, p).Ok? && !Timeline(c, h, e, p)
  {
    hide Consistent, CeilSeconds;
    var (e, p) := EarliestDrill(contract, c, h, q);
    assert LastVerification(h) == Some(h[|h| - 1].value.at);
    hide LastVerification;
    assert Evaluate(sha, contract, e, p).Ok?;
    hide Evaluate, IsNewPoint;
    assert UsesNewPoint(c, e.recoveryPointAt.value);
  }

  /** For each contract of a verified case, the promised order holds for every drill the case can accept
      if and only if its after snapshot has no early twin of a new point. Unique point ids are enough. */
  lemma TimelineExactly(sha: Source -> Digest, k: Keys, c: Case, h: seq<Option<EventBody>>, contract: Contract)
    requires VerifiedOk(k, c, h) && contract.scope == c.scope
    ensures (forall e, p :: Attach(sha, c, h, contract, e, p).Ok? ==> Timeline(c, h, e, p)) <==> NoEarlyTwin(c)
  {
    if NoEarlyTwin(c) {
      hide VerifiedOk, Attach, Timeline;
      forall e, p | Attach(sha, c, h, contract, e, p).Ok? ensures Timeline(c, h, e, p) {
        AttachedTimeline(sha, k, c, h, contract, e, p);
      }
    } else {
      var q :| q in c.after.value.points && q.id in c.outcome.value.newPointIds
          && q.createdAt < c.attempt.value.startedAt.value;
      EarlyTwinIsAccepted(sha, k, c, h, q, contract);
    }
  }

  // ---------------------------------------------------------------- over runs

  /** An accepted drill, between its checks and its insertion and after. */
  datatype Drill = Drill(caseId: CaseId, contract: Contract, restore: Restore, probe: Probe)

  datatype DrillRow = DrillRow(passed: bool, checkedAt: Time)

  datatype DrillSystem = DrillSystem(ledger: Ledger, accepted: seq<Drill>, table: map<(CaseId, Digest), DrillRow>)

  datatype DrillStep =
    | Check(drill: Drill)       // read the case and evaluate
    | Insert(index: nat)        // INSERT OR IGNORE of an accepted drill, any time later, possibly again
    | Elsewhere(op: Op)         // anyone's work on the ledger

  ghost function AttachTo(sha: Source -> Digest, l: Ledger, d: Drill): Result<Report, DrillError>
    requires d.caseId in l.cases
  {
    Attach(sha, l.cases[d.caseId], History(l, d.caseId), d.contract, d.restore, d.probe)
  }

  ghost function DrillNext(sha: Source -> Digest, k: Keys, s: DrillSystem, step: DrillStep): DrillSystem {
    match step
    case Check(d) =>
      if d.caseId in s.ledger.cases && AttachTo(sha, s.ledger, d).Ok? then s.(accepted := s.accepted + [d]) else s
    case Insert(i) =>
      if i >= |s.accepted| || s.accepted[i].caseId !in s.ledger.cases then s
      else if AttachTo(sha, s.ledger, s.accepted[i]).Err? then s
      else
        var r := AttachTo(sha, s.ledger, s.accepted[i]).value;
        var key := (s.accepted[i].caseId, r.sourceSha);
        if key in s.table then s else s.(table := s.table[key := DrillRow(r.passed, r.checkedAt)])
    case Elsewhere(op) => s.(ledger := Step(k, s.ledger, op))
  }

  ghost function DrillRun(sha: Source -> Digest, k: Keys, s: DrillSystem, steps: seq<DrillStep>): DrillSystem
    decreases |steps|
  {
    if steps == [] then s else DrillRun(sha, k, DrillNext(sha, k, s, steps[0]), steps[1..])
  }

  /** The case accepted the drill and would accept it again: a verified case never changes. */
  ghost predicate StillAccepted(sha: Source -> Digest, l: Ledger, d: Drill) {
    d.caseId in l.cases && l.cases[d.caseId].state == Verified && AttachTo(sha, l, d).Ok?
  }

  /** The row was written for an accepted drill and says what its report says. */
  ghost predicate RowFrom(sha: Source -> Digest, s: DrillSystem, key: (CaseId, Digest), i: int) {
    && 0 <= i < |s.accepted| && s.accepted[i].caseId == key.0 && StillAccepted(sha, s.ledger, s.accepted[i])
    && key in s.table
    && var r := AttachTo(sha, s.ledger, s.accepted[i]).value;
    && r.sourceSha == key.1 && s.table[key] == DrillRow(r.passed, r.checkedAt)
  }

  ghost predicate DrillInv(sha: Source -> Digest, k: Keys, s: DrillSystem) {
    && Inv(k, s.ledger)
    && (forall i :: 0 <= i < |s.accepted| ==> StillAccepted(sha, s.ledger, s.accepted[i]))
    && (forall key :: key in s.table ==> exists i :: RowFrom(sha, s, key, i))
  }

  lemma AcceptedSurvives(sha: Source -> Digest, l: Ledger, later: Ledger, d: Drill)
    requires Extends(l, later) && StillAccepted(sha, l, d)
    ensures StillAccepted(sha, later, d) && AttachTo(sha, later, d) == AttachTo(sha, l, d)
  {
    hide Attach, History;
    assert Continues(l.cases[d.caseId], History(l, d.caseId), later.cases[d.caseId], History(later, d.caseId));
  }

  lemma DrillNextHolds(sha: Source -> Digest, k: Keys, s: DrillSystem, step: DrillStep)
    requires DrillInv(sha, k, s)
    ensures DrillInv(sha, k, DrillNext(sha, k, s, step))
  {
    hide Inv, Extends, AttachTo, Step;
    var s' := DrillNext(sha, k, s, step);
    match step
    case Check(d) =>
      AcceptedIsVerified(sha, s.ledger, d);
      forall key | key in s'.table ensures exists i :: RowFrom(sha, s', key, i) {
        var i :| RowFrom(sha, s, key, i);
        assert s'.accepted[i] == s.accepted[i];
        assert RowFrom(sha, s', key, i);
      }
    case Insert(n) =>
      forall key | key in s'.table ensures exists i :: RowFrom(sha, s', key, i) {
        if key in s.table {
          var i :| RowFrom(sha, s, key, i);
          assert RowFrom(sha, s', key, i);
        } else {
          assert RowFrom(sha, s', key, n);
        }
      }
    case Elsewhere(op) =>
      StepHolds(k, s.ledger, op);
      forall i | 0 <= i < |s.accepted| ensures StillAccepted(sha, s'.ledger, s.accepted[i]) {
        AcceptedSurvives(sha, s.ledger, s'.ledger, s.accepted[i]);
      }
      forall key | key in s'.table ensures exists i :: RowFrom(sha, s', key, i) {
        var i :| RowFrom(sha, s, key, i);
        AcceptedSurvives(sha, s.ledger, s'.ledger, s.accepted[i]);
        assert RowFrom(sha, s', key, i);
      }
  }

  lemma AcceptedIsVerified(sha: Source -> Digest, l: Ledger, d: Drill)
    ensures d.caseId in l.cases && AttachTo(sha, l, d).Ok? ==> StillAccepted(sha, l, d)
  {}

  lemma {:induction false} DrillRunHolds(sha: Source -> Digest, k: Keys, s: DrillSystem, steps: seq<DrillStep>)
    requires DrillInv(sha, k, s)
    ensures DrillInv(sha, k, DrillRun(sha, k, s, steps))
    decreases |steps|
  {
    hide DrillInv, DrillNext;
    if steps != [] {
      DrillNextHolds(sha, k, s, steps[0]);
      DrillRunHolds(sha, k, DrillNext(sha, k, s, steps[0]), steps[1..]);
    }
  }

  /** The columns a verified case has. */
  ghost predicate HasColumns(c: Case) {
    && c.outcome.Some? && c.outcome.value.Checked? && c.after.Some?
    && c.attempt.Some? && c.attempt.value.startedAt.Some?
  }

  /** Over every run, each row of the drill table stands for a drill that kept the whole order: the
      backup attempt, the recovery point, the drill, the restore, the probe, the clean-up, with the
      verification recorded no later than the probe; provided no point sharing its id with a new one is
      older than the attempt, for which it is enough that the snapshot names each point once. */
  lemma EveryAttachedDrillIsOrdered(sha: Source -> Digest, k: Keys, steps: seq<DrillStep>, key: (CaseId, Digest))
    requires key in DrillRun(sha, k, DrillSystem(EMPTY, [], map[]), steps).table
    ensures var s := DrillRun(sha, k, DrillSystem(EMPTY, [], map[]), steps);
            && key.0 in s.ledger.cases && HasColumns(s.ledger.cases[key.0])
            && (UniqueIds(s.ledger.cases[key.0].after.value.points) ==> NoEarlyTwin(s.ledger.cases[key.0]))
            && exists i :: RowFrom(sha, s, key, i)
                 && (NoEarlyTwin(s.ledger.cases[key.0]) ==>
                       Timeline(s.ledger.cases[key.0], History(s.ledger, key.0), s.accepted[i].restore,
                                s.accepted[i].probe))
  {
    var s := DrillRun(sha, k, DrillSystem(EMPTY, [], map[]), steps);
    DrillRunHolds(sha, k, DrillSystem(EMPTY, [], map[]), steps);
    hide DrillRun, Inv, Timeline, Attach, NoEarlyTwin, UniqueIds, History;
    var i :| RowFrom(sha, s, key, i);
    var d, c, h := s.accepted[i], s.ledger.cases[key.0], History(s.ledger, key.0);
    VerifiedIsOk(k, s.ledger, key.0);
    if UniqueIds(c.after.value.points) { UniqueIdsHaveNoTwins(k, c, h); }
    if NoEarlyTwin(c) { AttachedTimeline(sha, k, c, h, d.contract, d.restore, d.probe); }
  }
}
