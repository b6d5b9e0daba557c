/** What the delivery protocol promises over every run, read off its invariant. */
module DeliveryGuarantees {
  import opened Common
  import opened Counting
  import opened BackupResolution
  import opened CaseLedger
  import opened CaseRules
  import opened ReplayWindow
  import opened AlertDelivery

  /** One case per alert, whichever way and however often the alert arrived: every case id stored in
      either delivery table is the id of that alert's only case. */
  lemma OneCasePerAlert(env: Env, actions: seq<AlertDelivery.Action>, a: CaseId, b: CaseId, i: nat, alertId: string)
    ensures var db := Play(env, START, actions).db;
            && (a in db.ledger.cases && b in db.ledger.cases ==>
                  (db.ledger.cases[a].alertId == db.ledger.cases[b].alertId <==> a == b))
            && (i < |db.messages| && db.messages[i].caseId.Some? ==>
                  CaseFor(db.ledger, db.messages[i].alertId) == db.messages[i].caseId)
            && (i < |db.messages| && db.messages[i].state == Completed ==> db.messages[i].caseId.Some?)
            && (alertId in db.bus && db.bus[alertId].caseId.Some? ==>
                  CaseFor(db.ledger, alertId) == db.bus[alertId].caseId)
  {
    var s := Play(env, START, actions);
    ReachableSystem(env, actions);
    hide Play, SystemInv, DatabaseOk, Inv;
    DatabaseIsOk(env, s);
    UniqueCases(env, s.db);
    if i < |s.db.messages| { MessageIsOk(env, s.db, i); }
    BusIsOk(env, s.db);
  }

  lemma UniqueCases(env: Env, db: Database)
    requires DatabaseOk(env, db)
    ensures UniqueAlerts(db.ledger)
  {}

  lemma BusIsOk(env: Env, db: Database)
    requires DatabaseOk(env, db)
    ensures BusOk(db.ledger, db.bus)
  {}

  lemma EntryIsOk(env: Env, s: System, j: nat)
    requires SystemInv(env, s) && j < |s.trace|
    ensures EntryOk(env, s.db, s.trace[j])
  {
    hide DatabaseOk, CallOk, AttemptsOnce;
  }

  /** The receiver tells the broker a delivery is complete only when the alert's case exists and is
      linked; and it still does, and is, at any later time. */
  lemma CompletedMeansCaseExists(env: Env, actions: seq<AlertDelivery.Action>, j: nat, alertId: string)
    requires var s := Play(env, START, actions);
             j < |s.trace| && s.trace[j].BrokerComplete? && s.trace[j].alertId == alertId
    ensures var db := Play(env, START, actions).db;
            && CaseFor(db.ledger, alertId).Some?
            && alertId in db.bus && db.bus[alertId].caseId == CaseFor(db.ledger, alertId)
  {
    hide Play, SystemInv, DatabaseOk, InScope, Addressed;
    var s := Play(env, START, actions);
    ReachableSystem(env, actions);
    EntryIsOk(env, s, j);
    OneCasePerAlert(env, actions, "", "", 0, alertId);
    DatabaseIsOk(env, s);
    BusIsOk(env, s.db);
  }

  predicate TellsBroker(e: Entry) { e.BrokerComplete? || e.BrokerDeadLetter? || e.BrokerAbandon? }

  /** Over every run, the receiver dead-letters a delivery if and only if it is out of scope, not under its
      alert's message id, or in conflict with the digest on record in a database of its configuration. It
      completes only what is on record there with this digest, and abandons the rest, so that the bus brings
      it again: what met another configuration, and what is on record but failed. */
  lemma BrokerIsToldExactly(env: Env, actions: seq<AlertDelivery.Action>, j: nat)
    requires var s := Play(env, START, actions); j < |s.trace| && TellsBroker(s.trace[j])
    ensures var s := Play(env, START, actions); var e := s.trace[j]; var d := e.delivery;
            && (e.BrokerDeadLetter? <==> !Addressed(env, d) || Conflicts(env, s.db, d))
            && (e.BrokerComplete? ==> OnRecord(env, s.db, d) && e.alertId == AlertOf(env, d))
            && (e.BrokerAbandon? ==>
                  Addressed(env, d) && (!BoundTo(env, s.db, d.config) || OnRecord(env, s.db, d)))
  {
    hide Play, SystemInv, InScope;
    var s := Play(env, START, actions);
    ReachableSystem(env, actions);
    EntryIsOk(env, s, j);
  }

  /** A call of the receiver ends by telling the broker once, about its own delivery, unless it crashes. */
  lemma EveryEndIsTold(env: Env, s: System, a: AlertDelivery.Action, p: CallId)
    requires p in s.calls && InDelivery(s.calls[p]) && a != Crash(p) && !InDelivery(Next(env, s, a).calls[p])
    ensures var t := Next(env, s, a);
            && |t.trace| == |s.trace| + 1 && t.trace[..|s.trace|] == s.trace
            && TellsBroker(t.trace[|s.trace|]) && t.trace[|s.trace|].delivery == DeliveryOf(s.calls[p])
  {
    hide Ingest, Scoped, Step, Enqueue, RecordDelivery, StoreDelivery, Bind, Lease, Earliest, SettleDone, SettleFailed;
  }

  /** One that is not let in is dead-lettered at once. */
  lemma StartIsTold(env: Env, s: System, p: CallId, d: Delivery)
    requires p !in s.calls
    ensures var t := Next(env, s, Deliver(p, d.config, d.body, d.messageId));
            && p in t.calls && t.db == s.db
            && (Addressed(env, d) ==> InDelivery(t.calls[p]) && DeliveryOf(t.calls[p]) == d && t.trace == s.trace)
            && (!Addressed(env, d) ==> t.calls[p] == Ended && t.trace == s.trace + [BrokerDeadLetter(d)])
  {
    ScopedExactly(env, d.config, d.body);
    hide Scoped, InScope;
  }

  /** Nothing delivered is lost or rewritten: rows of both tables keep their alert, digest, body and
      case from any point of a run to any later one, attempts only grow, and a bound database stays
      bound to the same configuration digest. */
  lemma NothingIsLost(env: Env, before: seq<AlertDelivery.Action>, more: seq<AlertDelivery.Action>)
    ensures Grows(Play(env, START, before).db, Play(env, Play(env, START, before), more).db)
  {
    ReachableSystem(env, before);
    PlayHolds(env, Play(env, START, before), more);
  }

  /** Two calls that bound in the same database used one configuration, or two configurations that
      share a digest. */
  lemma OneConfiguration(env: Env, actions: seq<AlertDelivery.Action>, i: nat, j: nat)
    requires var trace := Play(env, START, actions).trace;
             i < |trace| && j < |trace| && trace[i].Bound? && trace[j].Bound?
    ensures var trace := Play(env, START, actions).trace;
            trace[i].config == trace[j].config
            || (trace[i].config != trace[j].config && env.configSha(trace[i].config) == env.configSha(trace[j].config))
  {
    var s := Play(env, START, actions);
    ReachableSystem(env, actions);
    EntryIsOk(env, s, i);
    EntryIsOk(env, s, j);
  }

  /** While the clock read by accepted requests never goes back, no timestamp and nonce is accepted twice. */
  lemma NoTimestampNonceRepeats(env: Env, actions: seq<AlertDelivery.Action>)
    requires ClockWithin(Play(env, START, actions).db.window.accepted, 0)
    ensures NoReplay(Play(env, START, actions).db.window.accepted)
  {
    var s := Play(env, START, actions);
    ReachableSystem(env, actions);
    DatabaseIsOk(env, s);
    hide Play, SystemInv, Inv, MessageOk, BusOk, UniqueRows, ClockWithin, NoReplay;
    LongRetentionPreventsReplay(s.db.window, MAX_SKEW_SECONDS, NONCE_RETENTION_SECONDS, 0);
  }

  // ---------------------------------------------------------------- opening

  /** A case for the body's alert can be opened, or is there in the same scope. */
  ghost predicate Opens(env: Env, l: Ledger, config: Config, body: Body, newId: CaseId) {
    && env.decode(body).Some? && FiredOn(env.decode(body).value, config.scope)
    && var known := CaseFor(l, env.decode(body).value.alertId.value);
    && if known.Some? then l.cases[known.value].scope == config.scope else newId !in l.cases
  }

  ghost function OpenedId(env: Env, l: Ledger, body: Body, newId: CaseId): CaseId
    requires env.decode(body).Some? && env.decode(body).value.alertId.Some?
  {
    var known := CaseFor(l, env.decode(body).value.alertId.value);
    if known.Some? then known.value else newId
  }

  lemma OpensExactly(env: Env, l: Ledger, config: Config, body: Body, newId: CaseId, at: Time)
    requires env.decode(body).Some?
    ensures var r := Ingest(env.keys, l, config.version, env.decode(body).value, config.scope, newId, at);
            && (r.Ok? <==> Opens(env, l, config, body, newId))
            && (r.Ok? ==> r.value.1 == OpenedId(env, l, body, newId))
  {
    var alert := env.decode(body).value;
    IngestExactly(env.keys, l, config.version, alert, config.scope, newId, at);
    hide FiredOn, Ingest, ParseAlert;
  }

  /** What one undisturbed `work_once` makes of its message: given up after five attempts, else attempted
      once more and then complete with its case, pending again or, at the fifth, dead. */
  ghost predicate WorkLeaves(env: Env, l: Ledger, m: Message, n: Message, config: Config, newId: CaseId, fault: bool) {
    var done := !fault && Opens(env, l, config, m.body, newId);
    && n == m.(state := n.state, attempts := n.attempts, leaseUntil := None, caseId := n.caseId)
    && (m.attempts >= 5 ==> n.state == DeadLetter && n.attempts == m.attempts && n.caseId == m.caseId)
    && (m.attempts < 5 ==>
          && n.attempts == m.attempts + 1
          && (n.state == Completed <==> done)
          && (n.state == DeadLetter <==> !done && m.attempts == 4)
          && (n.state == Pending <==> !done && m.attempts < 4)
          && n.caseId == (if done then Some(OpenedId(env, l, m.body, newId)) else m.caseId))
  }

  // ---------------------------------------------------------------- rejected bodies

  /** `enqueue` commits exactly when the request is admitted and the alert is either new text or was
      first received with the same body digest. Then it adds one pending row or none. A conflicting
      body changes nothing at all, since rejection rolls the whole transaction back. */
  lemma EnqueueExactly(env: Env, db: Database, body: Body, alertId: string, req: Request, receivedAt: int)
    ensures var r := Enqueue(env, db, body, alertId, req, receivedAt);
            var first := FindAlert(db.messages, alertId);
            && (r.Ok? <==> Admit(db.window, req, MAX_SKEW_SECONDS, NONCE_RETENTION_SECONDS).Some?
                           && (if first.Some? then db.messages[first.value].digest == env.bodySha(body)
                               else env.utf8(body)))
            && (r.Ok? ==> r.value.ledger == db.ledger && r.value.bus == db.bus && r.value.bound == db.bound
                          && r.value.window.accepted == db.window.accepted + [req]
                          && r.value.messages[..|db.messages|] == db.messages
                          && |r.value.messages| == |db.messages| + (if first.Some? then 0 else 1)
                          && FindAlert(r.value.messages, alertId).Some?
                          && r.value.messages[FindAlert(r.value.messages, alertId).value].digest == env.bodySha(body))
  {
    var first := FindAlert(db.messages, alertId);
    if first.None? && Enqueue(env, db, body, alertId, req, receivedAt).Ok? {
      var m := Enqueue(env, db, body, alertId, req, receivedAt).value.messages;
      assert m[..|db.messages|] == db.messages;
    }
  }

  /** Two bodies accepted for one alert in the same table are equal, or collide under the digest. */
  lemma AcceptedAgain(env: Env, db: Database, body: Body, alertId: string, req: Request, receivedAt: int)
    requires DatabaseOk(env, db) && Enqueue(env, db, body, alertId, req, receivedAt).Ok?
    requires FindAlert(db.messages, alertId).Some?
    ensures var kept := db.messages[FindAlert(db.messages, alertId).value].body;
            kept == body || (kept != body && env.bodySha(kept) == env.bodySha(body))
  {
    hide Inv, WindowInv, Admit;
    MessageIsOk(env, db, FindAlert(db.messages, alertId).value);
  }

  /** The receiver's first transaction: refused exactly when the alert is on record with another
      digest, and then nothing changes; otherwise the alert is on record with this digest. */
  lemma RecordDeliveryExactly(env: Env, db: Database, body: Body, alertId: string, messageId: string)
    ensures var r := RecordDelivery(env, db, body, alertId, messageId);
            && (r.Err? <==> alertId in db.bus && db.bus[alertId].digest != env.bodySha(body))
            && (r.Ok? ==> alertId in r.value.bus && r.value.bus[alertId].digest == env.bodySha(body)
                          && r.value.bus - {alertId} == db.bus - {alertId} && (alertId in db.bus ==> r.value == db)
                          && (alertId !in db.bus ==> r.value.bus[alertId] == BusRow(env.bodySha(body), messageId, None))
                          && r.value == db.(bus := r.value.bus))
  {}

  /** The bodies accepted for an alert: over every run, two bodies one transport accepted for the same
      alert are equal, or collide under the digest. */
  ghost predicate EqualOrCollide(env: Env, a: Body, b: Body) { a == b || (a != b && env.bodySha(a) == env.bodySha(b)) }

  predicate SameTransport(e: Entry, f: Entry) {
    (e.InboxAccepted? && f.InboxAccepted?) || (e.BusAccepted? && f.BusAccepted?)
  }

  lemma AcceptedBodiesAgree(env: Env, actions: seq<AlertDelivery.Action>, i: nat, j: nat)
    requires var trace := Play(env, START, actions).trace;
             && i < |trace| && j < |trace| && SameTransport(trace[i], trace[j])
             && trace[i].alertId == trace[j].alertId
    ensures var trace := Play(env, START, actions).trace;
            EqualOrCollide(env, trace[i].body, trace[j].body)
  {
    hide Play, SystemInv, DatabaseOk;
    var s := Play(env, START, actions);
    ReachableSystem(env, actions);
    EntryIsOk(env, s, i);
    EntryIsOk(env, s, j);
    DatabaseIsOk(env, s);
    RowsAreUnique(env, s.db);
  }

  lemma RowsAreUnique(env: Env, db: Database)
    requires DatabaseOk(env, db)
    ensures UniqueRows(db.messages)
  {}

  /** What `enqueue` lets in, told from the request and the tables. */
  ghost predicate Acceptable(env: Env, db: Database, config: Config, body: Body, req: Request, signed: bool) {
    && InScope(env, config, body) && signed
    && -300 <= req.now - req.timestamp <= 300
    && 16 <= |req.nonce| <= 128 && (forall i :: 0 <= i < |req.nonce| ==> NonceChar(req.nonce[i]))
    && (db.bound.None? || BoundTo(env, db, config))
    && !(req.nonce in db.window.seen && db.window.seen[req.nonce] >= req.now - 600)
    && Fits(env, db.messages, env.decode(body).value.alertId.value, body)
  }

  /** The alert is new text, or was first received with this digest. */
  ghost predicate Fits(env: Env, messages: seq<Message>, alertId: string, body: Body) {
    && (forall i :: 0 <= i < |messages| && messages[i].alertId == alertId ==> messages[i].digest == env.bodySha(body))
    && ((exists i :: 0 <= i < |messages| && messages[i].alertId == alertId) || env.utf8(body))
  }

  /** The row a post adds: none for an alert already there. */
  ghost function NewRow(env: Env, messages: seq<Message>, alertId: string, body: Body, receivedAt: int): seq<Message> {
    if exists i :: 0 <= i < |messages| && messages[i].alertId == alertId then []
    else [Message(alertId, env.bodySha(body), body, Pending, 0, None, None, receivedAt)]
  }

  lemma EnqueueFits(env: Env, db: Database, body: Body, alertId: string, req: Request, receivedAt: int)
    requires UniqueRows(db.messages)
    ensures var r := Enqueue(env, db, body, alertId, req, receivedAt);
            && (r.Ok? <==> Admit(db.window, req, MAX_SKEW_SECONDS, NONCE_RETENTION_SECONDS).Some?
                           && Fits(env, db.messages, alertId, body))
            && (r.Ok? ==>
                  r.value.messages == db.messages + NewRow(env, db.messages, alertId, body, receivedAt))
  {
    hide Admit;
    var first := FindAlert(db.messages, alertId);
    if first.Some? {
      forall i | 0 <= i < |db.messages| && db.messages[i].alertId == alertId ensures i == first.value {}
    }
  }

  lemma AdmitsExactly(w: Window, r: Request)
    ensures Admit(w, r, MAX_SKEW_SECONDS, NONCE_RETENTION_SECONDS).Some? <==>
              && -300 <= r.now - r.timestamp <= 300
              && 16 <= |r.nonce| <= 128 && (forall i :: 0 <= i < |r.nonce| ==> NonceChar(r.nonce[i]))
              && !(r.nonce in w.seen && w.seen[r.nonce] >= r.now - 600)
  {}

  // ---------------------------------------------------------------- attempts

  function OpensFor(trace: seq<Entry>, i: nat): nat {
    if trace == [] then 0
    else
      var e := trace[|trace| - 1];
      OpensFor(trace[..|trace| - 1], i) + if e.OpenedFor? && e.index == i then 1 else 0
  }

  ghost function Numbers(trace: seq<Entry>, i: nat): (r: set<int>)
    ensures forall n :: n in r <==> OpenedFor(i, n) in trace
  {
    if trace == [] then {}
    else
      var e := trace[|trace| - 1];
      assert trace == trace[..|trace| - 1] + [e];
      Numbers(trace[..|trace| - 1], i) + if e.OpenedFor? && e.index == i then {e.number} else {}
  }

  lemma {:induction false} OpensAreNumbered(trace: seq<Entry>, i: nat)
    requires forall x, y :: 0 <= x < y < |trace| && trace[x].OpenedFor? ==> trace[x] != trace[y]
    ensures OpensFor(trace, i) == |Numbers(trace, i)|
  {
    if trace != [] {
      OpensAreNumbered(trace[..|trace| - 1], i);
    }
  }

  lemma OpensOnce(env: Env, s: System)
    requires SystemInv(env, s)
    ensures forall x, y :: 0 <= x < y < |s.trace| && s.trace[x].OpenedFor? ==> s.trace[x] != s.trace[y]
  {
    hide DatabaseOk, CallOk, EntryOk;
  }

  /** However workers overlap, crash or fail, a message is attempted at most five times, opens a case
      at most five times and no more often than it was attempted, and is given up only after all five. */
  lemma AtMostFiveAttempts(env: Env, actions: seq<AlertDelivery.Action>, i: nat)
    requires i < |Play(env, START, actions).db.messages|
    ensures var s := Play(env, START, actions);
            && 0 <= s.db.messages[i].attempts <= 5
            && OpensFor(s.trace, i) <= s.db.messages[i].attempts
            && (s.db.messages[i].state == DeadLetter ==> s.db.messages[i].attempts == 5)
  {
    hide Play, SystemInv, DatabaseOk, Carries, CaseIs, OpensFor, Numbers;
    var s := Play(env, START, actions);
    ReachableSystem(env, actions);
    DatabaseIsOk(env, s);
    MessageIsOk(env, s.db, i);
    OpensOnce(env, s);
    OpensAreNumbered(s.trace, i);
    forall n | n in Numbers(s.trace, i) ensures n in UpTo(s.db.messages[i].attempts) {
      var j :| 0 <= j < |s.trace| && s.trace[j] == OpenedFor(i, n);
      EntryIsOk(env, s, j);
    }
    SubsetIsSmaller(Numbers(s.trace, i), UpTo(s.db.messages[i].attempts));
  }

  /** A message a worker may take: pending, or leased to one whose time is up. */
  ghost predicate MayTake(m: Message, now: int) {
    m.state == Pending || (m.state == Leased && m.leaseUntil.Some? && m.leaseUntil.value <= now)
  }

  /** The earliest message a worker may take is leased. A lease counts one attempt, holds the message for 60
      seconds and then lets it be leased again; a message that used up five attempts is given up instead. */
  lemma LeaseExactly(s: System, p: CallId, i: nat, later: int)
    requires p in s.calls && s.calls[p].Working? && s.calls[p].bound && Earliest(s.db.messages, s.calls[p].now, i)
    ensures var t := DoLease(s, p, i); var m := s.db.messages[i];
            && t.db == s.db.(messages := s.db.messages[i := t.db.messages[i]])
            && MayTake(m, s.calls[p].now)
            && (forall j :: 0 <= j < |s.db.messages| && MayTake(s.db.messages[j], s.calls[p].now) ==>
                  m.receivedAt <= s.db.messages[j].receivedAt)
            && (m.attempts >= 5 ==>
                  t.db.messages[i] == m.(state := DeadLetter, leaseUntil := None) && t.calls == s.calls[p := Ended])
            && (m.attempts < 5 ==>
                  && t.db.messages[i] == m.(state := Leased, attempts := m.attempts + 1,
                                            leaseUntil := Some(s.calls[p].now + 60))
                  && t.calls == s.calls[p := Holding(s.calls[p].config, i, m.attempts + 1)]
                  && (Eligible(t.db.messages[i], later) <==> later >= s.calls[p].now + 60))
  {}

  // ---------------------------------------------------------------- progress

  function Remaining(m: Message): int {
    if m.state == Pending || m.state == Leased then MAX_ATTEMPTS + 1 - m.attempts else 0
  }

  /** What is left to try over all unfinished rows. */
  function Unfinished(messages: seq<Message>): int {
    if messages == [] then 0
    else Unfinished(messages[..|messages| - 1]) + Remaining(messages[|messages| - 1])
  }

  lemma {:induction false} UnfinishedAfterUpdate(messages: seq<Message>, i: nat, m: Message)
    requires i < |messages|
    ensures Unfinished(messages[i := m]) == Unfinished(messages) - Remaining(messages[i]) + Remaining(m)
  {
    var n := |messages| - 1;
    var updated := messages[i := m];
    if i == n {
      assert updated[..n] == messages[..n];
    } else {
      assert updated[..n] == messages[..n][i := m];
      UnfinishedAfterUpdate(messages[..n], i, m);
    }
  }

  ghost predicate WithinLimit(messages: seq<Message>) {
    forall i :: 0 <= i < |messages| ==> messages[i].attempts <= MAX_ATTEMPTS
  }

  /** It is never negative, and it is zero exactly when every row is complete or given up. */
  lemma {:induction false} UnfinishedIsPositive(messages: seq<Message>)
    requires WithinLimit(messages)
    ensures Unfinished(messages) >= 0
    ensures Unfinished(messages) == 0 <==> forall m :: m in messages ==> m.state == Completed || m.state == DeadLetter
  {
    if messages != [] {
      var front, last := messages[..|messages| - 1], messages[|messages| - 1];
      UnfinishedIsPositive(front);
      assert messages == front + [last];
    }
  }

  lemma ReachableWithinLimit(env: Env, db: Database)
    requires DatabaseOk(env, db)
    ensures WithinLimit(db.messages)
  {
    hide Inv, WindowInv, Carries, CaseIs;
  }

  /** Each lease that finds a row brings the work left strictly down, so it counts even if the worker
      is killed right after it; settling a row that is still leased never brings it up. */
  lemma EveryLeaseMakesProgress(env: Env, s: System, p: CallId, i: nat)
    requires SystemInv(env, s)
    requires p in s.calls && s.calls[p].Working? && s.calls[p].bound && Earliest(s.db.messages, s.calls[p].now, i)
    ensures 0 <= Unfinished(DoLease(s, p, i).db.messages) < Unfinished(s.db.messages)
  {
    hide SystemInv, DatabaseOk;
    LeaseHolds(env, s, p, i);
    DatabaseIsOk(env, DoLease(s, p, i));
    DatabaseIsOk(env, s);
    ReachableWithinLimit(env, s.db);
    ReachableWithinLimit(env, DoLease(s, p, i).db);
    UnfinishedAfterUpdate(s.db.messages, i, Lease(s.db.messages[i], s.calls[p].now));
    UnfinishedIsPositive(DoLease(s, p, i).db.messages);
  }

  lemma SettlingLosesNoProgress(s: System, p: CallId)
    requires p in s.calls && (s.calls[p].WorkOpened? || s.calls[p].WorkFailed?) && s.calls[p].index < |s.db.messages|
    requires s.db.messages[s.calls[p].index].state == Leased && s.db.messages[s.calls[p].index].attempts <= MAX_ATTEMPTS
    ensures Unfinished(DoSettle(s, p).db.messages) <= Unfinished(s.db.messages)
  {
    var c, m := s.calls[p], s.db.messages[s.calls[p].index];
    var settled := if c.WorkOpened? then SettleDone(m, c.id) else SettleFailed(m, c.number);
    UnfinishedAfterUpdate(s.db.messages, c.index, settled);
  }
}
