/** When the follow-ups of recovery drills are exactly the failed drills, and that reports as they are
    evaluated keep it so. */
module DrillFollowups {
  import R = RestoreDrill
  import opened Common
  import opened EventChain
  import opened Calendar
  import opened Money
  import opened PilotDelivery
  import opened ServiceReport

  /** Exactly the failed drills have a follow-up. */
  ghost predicate Agree(d: Desk) { forall key :: key in d.followups <==> key in d.drills && !d.drills[key].passed }

  /** Half of it holds whatever is recorded. */
  ghost predicate NoneMissing(d: Desk) {
    && (forall key :: key in d.followups ==> key in d.drills)
    && (forall key :: key in d.drills && !d.drills[key].passed ==> key in d.followups)
  }

  /** An accepted failed report that meets a passed row of its digest. */
  ghost predicate Clashes(d: Desk, c: Call)
    requires ValidDesk(d) && ValidCall(c)
  {
    && c.action.Drilling? && CheckDrill(d, c.action.id, c.action.row).Ok? && !c.action.row.passed
    && DrillKey(c.action.id, c.action.sha) in d.drills && d.drills[DrillKey(c.action.id, c.action.sha)].passed
  }

  ghost predicate NoClash(d: Desk, calls: seq<Call>)
    requires ValidCalls(calls) && ValidDesk(d)
  {
    calls != [] ==>
      NoClash(d, calls[..|calls| - 1]) && !Clashes(Run(d, calls[..|calls| - 1]), calls[|calls| - 1])
  }

  lemma AddedDrill(d: Desk, key: DrillKey, row: DrillRow)
    requires NoneMissing(d)
    ensures NoneMissing(AddDrill(d, key, row))
    ensures Agree(AddDrill(d, key, row)) <==> Agree(d) && !(!row.passed && key in d.drills && d.drills[key].passed)
  {
    var e := AddDrill(d, key, row);
    if key in d.drills && d.drills[key].passed && !row.passed { assert key in e.followups && e.drills[key].passed; }
    if !Agree(d) {
      var k :| !(k in d.followups <==> k in d.drills && !d.drills[k].passed);
      assert k in e.followups && k in e.drills && e.drills[k].passed;
    }
  }

  /** Only a drill touches the drill tables. */
  lemma DrillsAfter(d: Desk, c: Call)
    requires ValidDesk(d) && ValidCall(c)
    ensures var e := Step(d, c);
            if c.action.Drilling? && CheckDrill(d, c.action.id, c.action.row).Ok?
            then var t := AddDrill(d, DrillKey(c.action.id, c.action.sha), c.action.row);
                 e.drills == t.drills && e.followups == t.followups
            else e.drills == d.drills && e.followups == d.followups
  {
    hide CheckDrill, ValidTerms, AddDrill, Onboard, Activate, RecordWork;
  }

  lemma OneCall(d: Desk, c: Call)
    requires ValidDesk(d) && ValidCall(c) && NoneMissing(d)
    ensures NoneMissing(Step(d, c))
    ensures Agree(Step(d, c)) <==> Agree(d) && !Clashes(d, c)
  {
    hide CheckDrill, ValidTerms, Perform, AddDrill;
    DrillsAfter(d, c);
    if c.action.Drilling? { AddedDrill(d, DrillKey(c.action.id, c.action.sha), c.action.row); }
  }

  /** Over every run from tables that agree, they agree at the end exactly when no accepted failed report
      ever met a passed row of its digest. */
  lemma {:induction false} FollowupsExactly(d: Desk, calls: seq<Call>)
    requires ValidDesk(d) && ValidCalls(calls) && Agree(d)
    ensures Agree(Run(d, calls)) <==> NoClash(d, calls)
    ensures NoneMissing(Run(d, calls))
    decreases |calls|
  {
    if calls != [] {
      FollowupsExactly(d, calls[..|calls| - 1]);
      hide Step, Clashes, Agree, NoneMissing;
      OneCall(Run(d, calls[..|calls| - 1]), calls[|calls| - 1]);
    }
  }

  // ---------------------------------------------------------------- reports as they are evaluated

  /** The report recorded is the one `evaluate` gives for a source. */
  ghost predicate Evaluated(sha: R.Source -> Digest, digest: string, row: DrillRow, source: R.Source) {
    var r := R.Evaluate(sha, source.0, source.1, source.2);
    && r.Ok? && digest == r.value.sourceSha && row.passed == r.value.passed && row.resource == r.value.scope
    && row.elapsedSeconds == r.value.elapsedSeconds && row.actualRto == r.value.actualRto
    && row.actualRpo == r.value.actualRpo
  }

  ghost predicate AllEvaluated(sha: R.Source -> Digest, calls: seq<Call>, sources: seq<R.Source>) {
    && |sources| == |calls|
    && forall i :: 0 <= i < |calls| && calls[i].action.Drilling? ==>
         Evaluated(sha, calls[i].action.sha, calls[i].action.row, sources[i])
  }

  /** Two sources the digest does not tell apart. */
  ghost predicate Collide(sha: R.Source -> Digest, sources: seq<R.Source>, i: int, j: int) {
    0 <= i < |sources| && 0 <= j < |sources| && sources[i] != sources[j] && sha(sources[i]) == sha(sources[j])
  }

  ghost predicate CameFrom(calls: seq<Call>, j: int, key: DrillKey, row: DrillRow) {
    && 0 <= j < |calls| && calls[j].action.Drilling?
    && DrillKey(calls[j].action.id, calls[j].action.sha) == key && calls[j].action.row == row
  }

  lemma {:induction false} RowsComeFromCalls(d: Desk, calls: seq<Call>, key: DrillKey)
    requires ValidDesk(d) && ValidCalls(calls) && d.drills == map[] && key in Run(d, calls).drills
    ensures exists j :: CameFrom(calls, j, key, Run(d, calls).drills[key])
    decreases |calls|
  {
    hide Step, Clashes;
    var n := |calls| - 1;
    var front := calls[..n];
    DrillsAfter(Run(d, front), calls[n]);
    if key in Run(d, front).drills {
      RowsComeFromCalls(d, front, key);
      var j :| CameFrom(front, j, key, Run(d, front).drills[key]);
      assert CameFrom(calls, j, key, Run(d, calls).drills[key]);
    } else {
      assert CameFrom(calls, n, key, Run(d, calls).drills[key]);
    }
  }

  /** Recording only evaluated reports keeps the tables in agreement, or two of their sources collide. */
  lemma {:induction false} EvaluatedReportsAgree(sha: R.Source -> Digest, d: Desk, calls: seq<Call>,
                                                 sources: seq<R.Source>)
    requires ValidDesk(d) && ValidCalls(calls) && d.drills == map[] && d.followups == {}
    requires AllEvaluated(sha, calls, sources)
    ensures Agree(Run(d, calls)) || exists i, j :: Collide(sha, sources, i, j)
    decreases |calls|
  {
    FollowupsExactly(d, calls);
    hide Run, Agree, R.Evaluate, CheckDrill;
    if !NoClash(d, calls) {
      var i := FirstClash(d, calls);
      var key := DrillKey(calls[i].action.id, calls[i].action.sha);
      RowsComeFromCalls(d, calls[..i], key);
      var j :| CameFrom(calls[..i], j, key, Run(d, calls[..i]).drills[key]);
      assert calls[..i][j] == calls[j];
      assert Evaluated(sha, calls[i].action.sha, calls[i].action.row, sources[i]);
      assert Evaluated(sha, calls[j].action.sha, calls[j].action.row, sources[j]);
      OutcomeIsFixed(sha, calls[i].action, calls[j].action, sources[i], sources[j]);
      assert Collide(sha, sources, i, j);
    }
  }

  /** Reports with one digest and different outcomes have different sources. */
  lemma OutcomeIsFixed(sha: R.Source -> Digest, a: Action, b: Action, s: R.Source, t: R.Source)
    requires a.Drilling? && b.Drilling? && a.sha == b.sha && a.row.passed != b.row.passed
    requires Evaluated(sha, a.sha, a.row, s) && Evaluated(sha, b.sha, b.row, t)
    ensures s != t && sha(s) == sha(t)
  {}

  lemma {:induction false} FirstClash(d: Desk, calls: seq<Call>) returns (i: nat)
    requires ValidDesk(d) && ValidCalls(calls) && !NoClash(d, calls)
    ensures i < |calls| && Clashes(Run(d, calls[..i]), calls[i])
    decreases |calls|
  {
    hide Run, Clashes;
    var front := calls[..|calls| - 1];
    if NoClash(d, front) {
      i := |calls| - 1;
    } else {
      i := FirstClash(d, front);
      assert front[..i] == calls[..i];
    }
  }

  // ---------------------------------------------------------------- reports made by hand

  function HandMade(at: Stamp, scope: Scope, passed: bool): DrillRow {
    DrillRow("workload-1", passed, 60, if passed then Some(60) else None, 60, at, scope)
  }

  function OneDollar(scope: Scope): Offer {
    Offer("req-1", scope, Some("contract-1"), Usd(100), Usd(100), "token-of-thirty-two-characters-01")
  }

  /** One pilot, one digest, first passed and then failed. */
  function TwoOutcomes(at: Stamp, scope: Scope): seq<Call> {
    [Call(at, Requesting("req-1", Ask("partner-1", Some("customer-1"), 1, true))),
     Call(at, Onboarding("pilot-1", OneDollar(scope))),
     Call(at, Activating("pilot-1", scope, true)),
     Call(at, Drilling("pilot-1", "digest-1", HandMade(at, scope, true))),
     Call(at, Drilling("pilot-1", "digest-1", HandMade(at, scope, false)))]
  }

  function Asked(at: Stamp): Desk {
    NewDesk(at).(requests := map["req-1" := PilotRequest("partner-1", "customer-1", 1, false)])
  }

  function Signed(at: Stamp, scope: Scope): Desk {
    NewDesk(at).(requests := map["req-1" := PilotRequest("partner-1", "customer-1", 1, true)],
                 pilots := map["pilot-1" := Pilot("req-1", "partner-1", "customer-1", scope, "contract-1",
                                                  Terms(100, 100, None), false)])
  }

  /** The desk once the pilot is active. */
  function Started(at: Stamp, scope: Scope): Desk {
    var d := Signed(at, scope);
    d.(pilots := map["pilot-1" := d.pilots["pilot-1"].(active := true, terms := Terms(100, 100, Some(at)))])
  }

  lemma Signs(at: Stamp, scope: Scope)
    requires ValidStamp(at)
    ensures Step(Asked(at), TwoOutcomes(at, scope)[1]) == Signed(at, scope)
  {
    hide CentsOf, Usd, ValidStamp, AfterRequest, AfterActivate, AfterWork, AfterDrill;
    CentsUndoUsd(100);
  }

  lemma Starts(at: Stamp, scope: Scope)
    requires ValidStamp(at)
    ensures var calls := TwoOutcomes(at, scope);
            ValidDesk(NewDesk(at)) && ValidCalls(calls) && Run(NewDesk(at), calls[..3]) == Started(at, scope)
  {
    hide ValidStamp, AfterOnboard, AfterWork, AfterDrill, Run;
    var d, calls := NewDesk(at), TwoOutcomes(at, scope);
    RunNext(d, calls, 0);
    assert Step(d, calls[0]) == Asked(at);
    RunNext(d, calls, 1);
    Signs(at, scope);
    RunNext(d, calls, 2);
    assert Step(Signed(at, scope), calls[2]) == Started(at, scope);
  }

  lemma RunNext(d: Desk, calls: seq<Call>, n: nat)
    requires ValidDesk(d) && ValidCalls(calls) && n < |calls|
    ensures Run(d, calls[..n + 1]) == Step(Run(d, calls[..n]), calls[n])
    ensures Run(d, calls[..0]) == d
  {
    hide Step;
    assert calls[..n + 1][..n] == calls[..n];
  }

  /** A report made by hand with the digest of a passed one is accepted, and the tables part: a run from a
      new desk ends with a follow-up beside a passed row. */
  lemma TablesCanPart(at: Stamp, scope: Scope)
    requires ValidStamp(at)
    ensures ValidDesk(NewDesk(at)) && ValidCalls(TwoOutcomes(at, scope))
    ensures var e := Run(NewDesk(at), TwoOutcomes(at, scope));
            var key := DrillKey("pilot-1", "digest-1");
            key in e.drills && e.drills[key].passed && key in e.followups
  {
    hide ValidStamp, Run, NotAfter, AfterOnboard, AfterActivate, AfterWork, AfterRequest;
    var d, calls := NewDesk(at), TwoOutcomes(at, scope);
    Starts(at, scope);
    NotAfterItself(at);
    RunNext(d, calls, 3);
    RunNext(d, calls, 4);
    assert calls[..5] == calls;
  }
}
