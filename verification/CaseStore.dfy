/** The ledger as the program keeps it: tables updated in place, rows found by scanning. Every method
    is one transaction and is tied to the specification of that transaction. */
module CaseStore {
  import opened Common
  import opened EventChain
  import opened BackupResolution
  import opened CaseLedger

  class Store {
    var cases: map<CaseId, Case>
    var log: seq<LogRow>

    ghost function View(): Ledger
      reads this
    {
      Ledger(cases, log)
    }

    constructor ()
      ensures View() == EMPTY
    {
      cases, log := map[], [];
    }

    /** The hash of the case's last event, or the genesis hash: newest row first. */
    method LastHash(id: CaseId) returns (hash: Digest)
      ensures hash == FinalHash(RowsOf(log, id))
    {
      var i := |log|;
      assert log[..i] == log;
      while i > 0
        invariant 0 <= i <= |log|
        invariant RowsOf(log[..i], id) == RowsOf(log, id)
      {
        i := i - 1;
        assert log[..i + 1][..i] == log[..i];
        if log[i].caseId == id { return log[i].row.hash; }
      }
      return GENESIS;
    }

    /** `_event`. */
    method AppendEvent(k: Keys, id: CaseId, body: EventBody)
      modifies this`log
      ensures forall c :: WithEvent(k, old(View()), id, c, body) == Ledger(old(cases)[id := c], log)
    {
      var previous := LastHash(id);
      var digest := k.chain.sha(previous + k.chain.canonical(body));
      log := log + [LogRow(id, Row(Complete(body, map[]), previous, digest))];
    }

    method FindByAlert(alertId: string) returns (found: Option<CaseId>)
      requires UniqueAlerts(View())
      ensures found == CaseFor(View(), alertId)
    {
      var rest := cases.Keys;
      while rest != {}
        invariant rest <= cases.Keys
        invariant forall id :: id in cases && id !in rest ==> cases[id].alertId != alertId
        decreases rest
      {
        var id :| id in rest;
        if cases[id].alertId == alertId { return Some(id); }
        rest := rest - {id};
      }
      return None;
    }

    method Open(k: Keys, version: string, alert: Alert, scope: Scope, newId: CaseId, now: Time)
      returns (r: Result<CaseId, LedgerError>)
      requires UniqueAlerts(View())
      modifies this
      ensures match Ingest(k, old(View()), version, alert, scope, newId, now)
              case Ok(done) => r == Ok(done.1) && View() == done.0
              case Err(e) => r == Err(e) && View() == old(View())
    {
      var parsed := ParseAlert(alert, scope);
      if parsed.Err? { return Err(parsed.error); }
      var n := parsed.value;
      var existing := FindByAlert(n.alertId);
      if existing.Some? {
        if cases[existing.value].scope != scope { return Err(DuplicateAlertOtherScope); }
        return Ok(existing.value);
      }
      if newId in cases { return Err(CaseIdTaken); }
      AppendEvent(k, newId, EventBody(now, AlertIngested(n)));
      cases := cases[newId := NewCase(n.alertId, version, scope, now)];
      return Ok(newId);
    }

    method Diagnose(k: Keys, id: CaseId, s: Snapshot, now: Time) returns (r: Result<(), LedgerError>)
      modifies this
      ensures match OnCase(k, old(View()), id, DiagnoseOp(s, now))
              case Ok(l) => r == Ok(()) && View() == l
              case Err(e) => r == Err(e) && View() == old(View())
    {
      if id !in cases { return Err(CaseNotFound); }
      var c := cases[id];
      if s.scope != c.scope { return Err(SnapshotScopeMismatch); }
      if c.state != Received {
        if c.snapshot == Some(s) { return Ok(()); }
        return Err(AlreadyDiagnosed);
      }
      var plan := Propose(k.snapshotSha, s);
      var state := if plan.action == BackupNowCandidate then Diagnosed else NeedsReview;
      AppendEvent(k, id, EventBody(now, DiagnosisMade(plan.action, plan.snapshotSha)));
      cases := cases[id := c.(state := state, snapshot := Some(s), plan := Some(plan))];
      return Ok(());
    }

    method RecordAttempt(k: Keys, id: CaseId, a: Attempt, now: Time) returns (r: Result<(), LedgerError>)
      modifies this
      ensures match OnCase(k, old(View()), id, AttemptOp(a, now))
              case Ok(l) => r == Ok(()) && View() == l
              case Err(e) => r == Err(e) && View() == old(View())
    {
      if id !in cases { return Err(CaseNotFound); }
      var c := cases[id];
      if c.state != Diagnosed || c.plan.None? {
        if c.attempt == Some(a) { return Ok(()); }
        return Err(NotAwaitingRetry);
      }
      var guard := AttemptGuard(c.scope, c.plan.value, a);
      if guard.Err? { return Err(guard.error); }
      var state := if Accepted(a) then AwaitingResult else NeedsReview;
      AppendEvent(k, id, EventBody(now, RetryRecorded(a.requestStatus, a.requestJobId)));
      cases := cases[id := c.(state := state, attempt := Some(a))];
      return Ok(());
    }

    method RecordVerification(k: Keys, id: CaseId, after: Snapshot, now: Time) returns (r: Result<(), LedgerError>)
      modifies this
      ensures match OnCase(k, old(View()), id, VerifyOp(after, now))
              case Ok(l) => r == Ok(()) && View() == l
              case Err(e) => r == Err(e) && View() == old(View())
    {
      if id !in cases { return Err(CaseNotFound); }
      var c := cases[id];
      if c.state != AwaitingResult && c.state != Verified { return Err(NotAwaitingVerification); }
      if after.scope != c.scope { return Err(AfterScopeMismatch); }
      if !after.accountVerified { return Err(AfterAccountNotVerified); }
      if c.after == Some(after) { return Ok(()); }
      if c.state == Verified { return Err(CaseClosed); }
      if c.snapshot.None? || c.attempt.None? { return Err(VerifyFailed); }
      var verdict := Verify(c.snapshot.value, after, c.attempt.value);
      if verdict.Err? { return Err(VerifyFailed); }
      var outcome := verdict.value;
      var state := if StatusOf(outcome) == VerifiedBackup then Verified else AwaitingResult;
      AppendEvent(k, id, EventBody(now, VerificationRecorded(StatusOf(outcome))));
      cases := cases[id := c.(state := state, outcome := Some(outcome), after := Some(after))];
      return Ok(());
    }

    /** `verify_chain` on the stored rows of one case. */
    method ChainValid(k: Keys, id: CaseId) returns (valid: bool)
      ensures valid <==> Chained(k.chain, RowsOf(log, id))
      ensures CaseLedger.Inv(k, View()) ==> valid
    {
      var rows: seq<Row<EventBody>> := [];
      for i := 0 to |log|
        invariant rows == RowsOf(log[..i], id)
      {
        assert log[..i + 1][..i] == log[..i];
        if log[i].caseId == id { rows := rows + [log[i].row]; }
      }
      assert log[..|log|] == log;
      valid := VerifyChain(k.chain, rows);
      if CaseLedger.Inv(k, View()) { ChainOf(k, View(), id); }
    }
  }
}
