/** The delivery functions as the program runs them when nothing interferes: loops and updates over
    the tables, each tied to the protocol's own steps for a lone call. */
module DeliveryStore {
  import opened Common
  import opened EventChain
  import opened BackupResolution
  import opened CaseLedger
  import opened CaseStore
  import opened ReplayWindow
  import opened AlertDelivery
  import opened DeliveryGuarantees

  function Alone(db: Database, c: Call): System { System(db, map[0 := c], []) }

  /** `enqueue`, `work_once` and `settle_one` as lone runs of the protocol. */
  function PostAlone(env: Env, db: Database, config: Config, body: Body, req: Request, signed: bool,
                     receivedAt: int): System {
    DoEnqueue(env, DoBind(env, DoPost(env, System(db, map[], []), 0, config, body, req, signed), 0), 0, receivedAt)
  }

  ghost function WorkAlone(env: Env, db: Database, config: Config, now: int, i: nat, newId: CaseId, at: Time,
                           fault: bool): System {
    DoSettle(DoOpen(env, DoLease(DoBind(env, Alone(db, Working(config, now, false)), 0), 0, i), 0, newId, at, fault), 0)
  }

  ghost function DeliverAlone(env: Env, db: Database, config: Config, body: Body, messageId: string,
                              newId: CaseId, at: Time, fault: bool): System {
    DoComplete(DoStore(DoOpen(env, DoRecord(env, DoBind(env,
      DoDeliver(env, System(db, map[], []), 0, config, body, messageId), 0), 0), 0, newId, at, fault), 0, false), 0)
  }

  lemma LoneCallHolds(env: Env, db: Database, c: Call)
    requires DatabaseOk(env, db) && CallOk(env, db, c) && !c.Holding?
    ensures SystemInv(env, Alone(db, c)) && SystemInv(env, System(db, map[], []))
  {
    hide DatabaseOk, CallOk;
  }

  datatype WorkResult = Refused | Idle | Worked(index: nat)

  class Gateway {
    const env: Env
    const store: Store
    var bound: Option<Digest>
    var seen: map<string, int>
    ghost var accepted: seq<Request>
    var messages: seq<Message>
    var bus: map<string, BusRow>

    ghost function View(): Database
      reads this, store
    {
      Database(store.View(), bound, Window(seen, accepted), messages, bus)
    }

    ghost predicate Valid()
      reads this, store
    {
      DatabaseOk(env, View())
    }

    constructor (env: Env, store: Store)
      requires Inv(env.keys, store.View())
      ensures this.env == env && this.store == store && Valid() && messages == [] && bus == map[]
    {
      this.env, this.store := env, store;
      bound, seen, accepted, messages, bus := None, map[], [], [], map[];
    }

    method BindConfig(config: Config) returns (ok: bool)
      modifies this`bound
      ensures match Bind(env, old(View()), config)
              case Ok(db) => ok && View() == db
              case Err(_) => !ok && View() == old(View())
    {
      var digest := env.configSha(config);
      if bound.None? {
        bound := Some(digest);
      } else if bound.value != digest {
        return false;
      }
      return true;
    }

    /** DELETE FROM gateway_nonces WHERE seen_at < before, on a copy that commits later. */
    method Expire(before: int) returns (kept: map<string, int>)
      ensures kept == Purge(seen, before)
    {
      kept := map[];
      var rest := seen.Keys;
      while rest != {}
        invariant rest <= seen.Keys
        invariant kept == map n | n in seen && n !in rest && seen[n] >= before :: seen[n]
        decreases rest
      {
        var n :| n in rest;
        if seen[n] >= before { kept := kept[n := seen[n]]; }
        rest := rest - {n};
      }
    }

    method Find(alertId: string) returns (found: Option<nat>)
      ensures found == FindAlert(messages, alertId)
    {
      var i := |messages|;
      assert messages[..i] == messages;
      while i > 0
        invariant 0 <= i <= |messages|
        invariant FindAlert(messages[..i], alertId) == FindAlert(messages, alertId)
      {
        i := i - 1;
        assert messages[..i + 1][..i] == messages[..i];
        if messages[i].alertId == alertId { return Some(i); }
      }
      return None;
    }

    /** `enqueue`. */
    method Post(config: Config, body: Body, req: Request, signed: bool, receivedAt: int) returns (ok: bool)
      requires Valid()
      modifies this
      ensures View() == PostAlone(env, old(View()), config, body, req, signed, receivedAt).db && Valid()
      ensures ok <==> accepted == old(accepted) + [req]
      ensures ok <==> Acceptable(env, old(View()), config, body, req, signed)
      ensures ok ==>
                messages == old(messages)
                            + NewRow(env, old(messages), env.decode(body).value.alertId.value, body, receivedAt)
      ensures !ok ==> messages == old(messages) && seen == old(seen)
    {
      hide DatabaseOk, SystemInv, Grows, PostAlone, Scoped, ValidNonce, InSkew, Enqueue, InScope, Fits;
      PostIsValid(env, View(), config, body, req, signed, receivedAt);
      ScopedExactly(env, config, body);
      AdmitsExactly(View().window, req);
      RowsAreUnique(env, View());
      var alert := Scoped(env, config, body);
      if alert.None? || !InSkew(req, MAX_SKEW_SECONDS) || !ValidNonce(req.nonce) || !signed { return false; }
      var alertId := alert.value;
      var bindable := BindConfig(config);
      if !bindable { return false; }
      EnqueueFits(env, View(), body, alertId, req, receivedAt);
      ok := AddMessage(body, alertId, req, receivedAt);
    }

    /** The transaction of `enqueue`. */
    method AddMessage(body: Body, alertId: string, req: Request, receivedAt: int) returns (ok: bool)
      requires InSkew(req, MAX_SKEW_SECONDS) && ValidNonce(req.nonce)
      modifies this`seen, this`accepted, this`messages
      ensures match Enqueue(env, old(View()), body, alertId, req, receivedAt)
              case Ok(db) => ok && View() == db
              case Err(_) => !ok && View() == old(View())
      ensures accepted == old(accepted) + if ok then [req] else []
    {
      hide InSkew, ValidNonce, FindAlert;
      var kept := Expire(req.now - NONCE_RETENTION_SECONDS);
      if req.nonce in kept { return false; }
      var row := Find(alertId);
      if row.Some? {
        if messages[row.value].digest != env.bodySha(body) { return false; }
      } else {
        if !env.utf8(body) { return false; }
        messages := messages + [Message(alertId, env.bodySha(body), body, Pending, 0, None, None, receivedAt)];
      }
      seen, accepted := kept[req.nonce := req.now], accepted + [req];
      return true;
    }

    /** SELECT ... ORDER BY received_at LIMIT 1. */
    method Pick(now: int) returns (found: Option<nat>)
      ensures match found
              case Some(i) => i < |messages| && Earliest(messages, now, i)
              case None => forall j :: 0 <= j < |messages| ==> !Eligible(messages[j], now)
    {
      found := None;
      for i := 0 to |messages|
        invariant found.None? ==> forall j :: 0 <= j < i ==> !Eligible(messages[j], now)
        invariant found.Some? ==> found.value < i && Earliest(messages[..i], now, found.value)
      {
        if Eligible(messages[i], now) && (found.None? || messages[i].receivedAt < messages[found.value].receivedAt) {
          found := Some(i);
        }
      }
    }

    /** `work_once`, from start to end. Whenever it finds a row it leaves strictly less to do. */
    method WorkOnce(config: Config, now: int, newId: CaseId, at: Time, fault: bool) returns (r: WorkResult)
      requires Valid()
      modifies this, store
      ensures Valid()
      ensures match r
              case Refused => View() == old(View()) && Bind(env, old(View()), config).Err?
              case Idle =>
                && Bind(env, old(View()), config) == Ok(View())
                && forall j :: 0 <= j < |messages| ==> !MayTake(messages[j], now)
              case Worked(i) =>
                && Earliest(old(messages), now, i) && MayTake(old(messages)[i], now)
                && (forall j :: 0 <= j < |old(messages)| && MayTake(old(messages)[j], now) ==>
                      old(messages)[i].receivedAt <= old(messages)[j].receivedAt)
                && View() == WorkAlone(env, old(View()), config, now, i, newId, at, fault).db
                && Unfinished(messages) < old(Unfinished(messages))
                && |messages| == |old(messages)| && messages == old(messages)[i := messages[i]]
                && WorkLeaves(env, old(store.View()), old(messages)[i], messages[i], config, newId, fault)
                && (old(messages)[i].attempts >= 5 ==> store.View() == old(store.View()))
    {
      hide DatabaseOk, SystemInv, Grows, WorkAlone, WorkDone, Unfinished, Earliest, Scoped, WorkLeaves;
      ghost var db := View();
      var bindable := BindConfig(config);
      if !bindable { return Refused; }
      BindOk(env, db, config);
      ghost var b := View();
      var picked := Pick(now);
      if picked.None? { return Idle; }
      var i := picked.value;
      WorkIsValid(env, db, config, now, i, newId, at, fault);
      EarliestIsRow(messages, now, i);
      UniqueCases(env, View());
      WorkDoneLeaves(env, b, config, now, i, newId, at, fault);
      LeaseAndOpen(config, now, i, newId, at, fault);
      return Worked(i);
    }

    /** What `work_once` does with the row it picked. */
    method LeaseAndOpen(config: Config, now: int, i: nat, newId: CaseId, at: Time, fault: bool)
      requires i < |messages| && UniqueAlerts(store.View())
      modifies this`messages, store
      ensures View() == WorkDone(env, old(View()), config, now, i, newId, at, fault)
    {
      hide Ingest;
      var m := messages[i];
      if m.attempts >= MAX_ATTEMPTS {
        messages := messages[i := m.(state := DeadLetter, leaseUntil := None)];
        return;
      }
      messages := messages[i := m.(state := Leased, attempts := m.attempts + 1,
                                   leaseUntil := Some(now + LEASE_SECONDS))];
      var done: Result<CaseId, LedgerError> := Err(VerifyFailed);
      var alert := env.decode(m.body);
      if !fault && alert.Some? {
        done := store.Open(env.keys, config.version, alert.value, config.scope, newId, at);
      }
      var leased := messages[i];
      var failed := if m.attempts + 1 >= MAX_ATTEMPTS then DeadLetter else Pending;
      messages := messages[i := match done
                                case Ok(id) => leased.(state := Completed, leaseUntil := None, caseId := Some(id))
                                case Err(_) => leased.(state := failed, leaseUntil := None)];
    }
  }

  lemma EarliestIsRow(messages: seq<Message>, now: int, i: nat)
    requires Earliest(messages, now, i)
    ensures i < |messages| && MayTake(messages[i], now)
    ensures forall j :: 0 <= j < |messages| && MayTake(messages[j], now) ==>
              messages[i].receivedAt <= messages[j].receivedAt
  {}

  /** The database a lone post leaves, spelled out. */
  function Posted(env: Env, db: Database, config: Config, body: Body, req: Request, signed: bool,
                  receivedAt: int): Database {
    if Scoped(env, config, body).None? || !InSkew(req, MAX_SKEW_SECONDS) || !ValidNonce(req.nonce) || !signed then db
    else
      match Bind(env, db, config)
      case Err(_) => db
      case Ok(b) =>
        match Enqueue(env, b, body, Scoped(env, config, body).value, req, receivedAt)
        case Err(_) => b
        case Ok(e) => e
  }

  lemma PostIsValid(env: Env, db: Database, config: Config, body: Body, req: Request, signed: bool, receivedAt: int)
    requires DatabaseOk(env, db)
    ensures PostAlone(env, db, config, body, req, signed, receivedAt).db
         == Posted(env, db, config, body, req, signed, receivedAt)
    ensures DatabaseOk(env, Posted(env, db, config, body, req, signed, receivedAt))
  {
    hide SystemInv, DatabaseOk, Scoped, Bind, Enqueue, InSkew, ValidNonce, Grows;
    LoneCallHolds(env, db, Ended);
    var s0 := System(db, map[], []);
    PostHolds(env, s0, 0, config, body, req, signed);
    var s1 := DoPost(env, s0, 0, config, body, req, signed);
    BindHolds(env, s1, 0);
    EnqueueHolds(env, DoBind(env, s1, 0), 0, receivedAt);
    DatabaseIsOk(env, PostAlone(env, db, config, body, req, signed, receivedAt));
  }

  /** The database a lone worker leaves, spelled out. */
  ghost function WorkDone(env: Env, db: Database, config: Config, now: int, i: nat, newId: CaseId, at: Time,
                          fault: bool): Database
    requires i < |db.messages|
  {
    var m := db.messages[i];
    var leased := Lease(m, now);
    if m.attempts >= MAX_ATTEMPTS then db.(messages := db.messages[i := leased])
    else
      var found := if fault || env.decode(m.body).None? then Err(VerifyFailed)
                   else Ingest(env.keys, db.ledger, config.version, env.decode(m.body).value, config.scope, newId, at);
      match found
      case Ok(r) => db.(ledger := r.0, messages := db.messages[i := SettleDone(leased, r.1)])
      case Err(_) => db.(messages := db.messages[i := SettleFailed(leased, m.attempts + 1)])
  }

  lemma WorkDoneLeaves(env: Env, db: Database, config: Config, now: int, i: nat, newId: CaseId, at: Time, fault: bool)
    requires i < |db.messages|
    ensures var d := WorkDone(env, db, config, now, i, newId, at, fault);
            && |d.messages| == |db.messages| && d.messages == db.messages[i := d.messages[i]]
            && WorkLeaves(env, db.ledger, db.messages[i], d.messages[i], config, newId, fault)
            && (db.messages[i].attempts >= 5 ==> d.ledger == db.ledger)
  {
    var body := db.messages[i].body;
    if env.decode(body).Some? { OpensExactly(env, db.ledger, config, body, newId, at); }
    hide Ingest, Opens;
    if env.decode(body).None? { NotOpened(env, db.ledger, config, body, newId); }
  }

  lemma NotOpened(env: Env, l: Ledger, config: Config, body: Body, newId: CaseId)
    requires env.decode(body).None?
    ensures !Opens(env, l, config, body, newId)
  {}

  lemma WorkIsDone(env: Env, db: Database, config: Config, now: int, i: nat, newId: CaseId, at: Time, fault: bool)
    requires Bind(env, db, config).Ok? && Earliest(db.messages, now, i)
    ensures WorkAlone(env, db, config, now, i, newId, at, fault).db
         == WorkDone(env, Bind(env, db, config).value, config, now, i, newId, at, fault)
  {
    hide Ingest, Eligible, DoOpen, DoSettle, SettleDone, SettleFailed, WorkDone;
    var s1 := DoBind(env, Alone(db, Working(config, now, false)), 0);
    assert s1.db.messages == db.messages && s1.db == Bind(env, db, config).value;
    assert Earliest(s1.db.messages, now, i);
    var s2 := DoLease(s1, 0, i);
    TailIsDone(env, s1.db, s2, config, now, i, newId, at, fault);
  }

  /** What follows a lease: nothing when the message was given up, else opening and settling. */
  lemma TailIsDone(env: Env, db: Database, s: System, config: Config, now: int, i: nat, newId: CaseId, at: Time,
                   fault: bool)
    requires i < |db.messages| && 0 in s.calls && s.db == db.(messages := db.messages[i := Lease(db.messages[i], now)])
    requires var m := db.messages[i];
             s.calls[0] == if m.attempts >= MAX_ATTEMPTS then Ended else Holding(config, i, m.attempts + 1)
    ensures DoSettle(DoOpen(env, s, 0, newId, at, fault), 0).db == WorkDone(env, db, config, now, i, newId, at, fault)
  {
    hide Ingest, SettleDone, SettleFailed;
    var m := db.messages[i];
    assert s.db.messages[i := SettleFailed(Lease(m, now), m.attempts + 1)]
        == db.messages[i := SettleFailed(Lease(m, now), m.attempts + 1)];
  }

  lemma WorkIsValid(env: Env, db: Database, config: Config, now: int, i: nat, newId: CaseId, at: Time, fault: bool)
    requires DatabaseOk(env, db) && Bind(env, db, config).Ok? && Earliest(db.messages, now, i)
    ensures var later := WorkAlone(env, db, config, now, i, newId, at, fault).db;
            && DatabaseOk(env, later)
            && later == WorkDone(env, Bind(env, db, config).value, config, now, i, newId, at, fault)
            && Unfinished(later.messages) < Unfinished(db.messages)
  {
    hide DatabaseOk, SystemInv, Grows, Ingest, Unfinished, DoSettle, WorkDone;
    WorkIsDone(env, db, config, now, i, newId, at, fault);
    var s0 := Alone(db, Working(config, now, false));
    LoneCallHolds(env, db, Working(config, now, false));
    var s1 := DoBind(env, s0, 0);
    BindHolds(env, s0, 0);
    assert s1.db.messages == db.messages;
    var s2 := DoLease(s1, 0, i);
    LeaseHolds(env, s1, 0, i);
    EveryLeaseMakesProgress(env, s1, 0, i);
    hide Earliest, Eligible, DoBind;
    OpenHolds(env, s2, 0, newId, at, fault);
    SettleHolds(env, DoOpen(env, s2, 0, newId, at, fault), 0);
    DatabaseIsOk(env, DoSettle(DoOpen(env, s2, 0, newId, at, fault), 0));
    DatabaseIsOk(env, s2);
    MessageIsOk(env, s2.db, i);
    if db.messages[i].attempts < MAX_ATTEMPTS { SettlingLosesNoProgress(DoOpen(env, s2, 0, newId, at, fault), 0); }
    else { NothingToSettle(DoOpen(env, s2, 0, newId, at, fault)); }
  }

  lemma NothingToSettle(s: System)
    requires 0 in s.calls && s.calls[0].Ended?
    ensures DoSettle(s, 0) == s
  {}

  // ---------------------------------------------------------------- the receiver

  datatype Settlement = CompleteMessage(id: CaseId) | DeadLetterMessage | AbandonMessage

  function AsEntry(r: Settlement, alertId: string, d: Delivery): Entry {
    match r
    case CompleteMessage(_) => BrokerComplete(alertId, d)
    case DeadLetterMessage => BrokerDeadLetter(d)
    case AbandonMessage => BrokerAbandon(d)
  }

  /** The database a lone delivery leaves and what the broker is told, spelled out. */
  ghost function DeliverDone(env: Env, db: Database, config: Config, body: Body, messageId: string,
                             newId: CaseId, at: Time, fault: bool): (Database, Entry)
  {
    var alert, delivery := Scoped(env, config, body), Delivery(config, body, messageId);
    if alert.None? || messageId != env.busId(config.customerId, alert.value) then (db, BrokerDeadLetter(delivery))
    else
      match Bind(env, db, config)
      case Err(_) => (db, BrokerAbandon(delivery))
      case Ok(b) =>
        match RecordDelivery(env, b, body, alert.value, messageId)
        case Err(_) => (b, BrokerDeadLetter(delivery))
        case Ok(d) =>
          var found := if fault || env.decode(body).None? then Err(VerifyFailed)
                       else Ingest(env.keys, d.ledger, config.version, env.decode(body).value, config.scope, newId, at);
          match found
          case Err(_) => (d, BrokerAbandon(delivery))
          case Ok(r) => (StoreDelivery(d.(ledger := r.0), alert.value, r.1), BrokerComplete(alert.value, delivery))
  }

  lemma DeliverIsDone(env: Env, db: Database, config: Config, body: Body, messageId: string,
                      newId: CaseId, at: Time, fault: bool)
    ensures var s := DeliverAlone(env, db, config, body, messageId, newId, at, fault);
            && s.trace != []
            && (s.db, s.trace[|s.trace| - 1]) == DeliverDone(env, db, config, body, messageId, newId, at, fault)
  {
    hide Ingest, Scoped, RecordDelivery, StoreDelivery;
  }

  lemma DeliverIsValid(env: Env, db: Database, config: Config, body: Body, messageId: string,
                       newId: CaseId, at: Time, fault: bool)
    requires DatabaseOk(env, db)
    ensures DatabaseOk(env, DeliverAlone(env, db, config, body, messageId, newId, at, fault).db)
  {
    hide DatabaseOk, SystemInv, Grows, DoDeliver, DoBind, DoRecord, DoOpen, DoStore, DoComplete;
    LoneCallHolds(env, db, Ended);
    var s0 := System(db, map[], []);
    DeliverHolds(env, s0, 0, config, body, messageId);
    var s1 := DoDeliver(env, s0, 0, config, body, messageId);
    BindHolds(env, s1, 0);
    RecordHolds(env, DoBind(env, s1, 0), 0);
    var s3 := DoRecord(env, DoBind(env, s1, 0), 0);
    OpenHolds(env, s3, 0, newId, at, fault);
    StoreHolds(env, DoOpen(env, s3, 0, newId, at, fault), 0, false);
    CompleteHolds(env, DoStore(DoOpen(env, s3, 0, newId, at, fault), 0, false), 0);
    DatabaseIsOk(env, DeliverAlone(env, db, config, body, messageId, newId, at, fault));
  }

  /** `settle_one` over `open_delivered_case`: what the broker is told is the last step of the lone run. */
  method SettleOne(g: Gateway, config: Config, body: Body, messageId: string, newId: CaseId, at: Time, fault: bool)
    returns (r: Settlement)
    requires g.Valid()
    modifies g, g.store
    ensures var s := DeliverAlone(g.env, old(g.View()), config, body, messageId, newId, at, fault);
            var a := Scoped(g.env, config, body);
            && g.View() == s.db && g.Valid() && s.trace != []
            && s.trace[|s.trace| - 1] == AsEntry(r, if a.Some? then a.value else "", Delivery(config, body, messageId))
    ensures r.CompleteMessage? ==>
              var a := Scoped(g.env, config, body);
              && a.Some? && a.value in g.bus && g.bus[a.value].caseId == Some(r.id)
              && CaseIs(g.store.View(), r.id, a.value)
    ensures var d, was := Delivery(config, body, messageId), old(g.View());
            var bindable := was.bound.None? || BoundTo(g.env, was, config);
            && (r.DeadLetterMessage? <==> !Addressed(g.env, d) || (bindable && ConflictsIn(g.env, was.bus, d)))
            && (r.CompleteMessage? <==>
                  && Addressed(g.env, d) && bindable && !ConflictsIn(g.env, was.bus, d)
                  && !fault && Opens(g.env, was.ledger, config, body, newId))
            && (r.CompleteMessage? ==> r.id == OpenedId(g.env, was.ledger, body, newId))
            && (!r.CompleteMessage? ==> g.store.View() == was.ledger)
            && g.messages == was.messages
  {
    hide DatabaseOk, Ingest, Grows, ParseAlert, DeliverAlone, InScope, Opens, OpenedId, Scoped, SystemInv;
    ghost var db := g.View();
    ScopedExactly(g.env, config, body);
    if g.env.decode(body).Some? { OpensExactly(g.env, db.ledger, config, body, newId, at); }
    DeliverIsDone(g.env, db, config, body, messageId, newId, at, fault);
    DeliverIsValid(g.env, db, config, body, messageId, newId, at, fault);
    var alert := Scoped(g.env, config, body);
    if alert.None? || messageId != g.env.busId(config.customerId, alert.value) { return DeadLetterMessage; }
    var alertId := alert.value;
    var bindable := g.BindConfig(config);
    if !bindable { return AbandonMessage; }
    BindOk(g.env, db, config);
    ghost var b := g.View();
    var digest := g.env.bodySha(body);
    if alertId in g.bus && g.bus[alertId].digest != digest { return DeadLetterMessage; }
    if alertId !in g.bus {
      g.bus := g.bus[alertId := BusRow(digest, messageId, None)];
    }
    UniqueCases(g.env, b);
    if fault { return AbandonMessage; }
    var done := g.store.Open(g.env.keys, config.version, g.env.decode(body).value, config.scope, newId, at);
    if done.Err? { return AbandonMessage; }
    g.bus := g.bus[alertId := g.bus[alertId].(caseId := Some(done.value))];
    OpenedIs(g.env, b, config, body, alertId, newId, at);
    return CompleteMessage(done.value);
  }
}
