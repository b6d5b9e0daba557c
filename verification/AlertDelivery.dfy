/** Alert delivery into one customer's database: the authenticated inbox, its leased workers and the
    message-bus receiver, any number of each at once, all opening cases in the same ledger. Every
    transaction is one step; a process can stop for ever between any two. */
module AlertDelivery {
  import opened Common
  import opened EventChain
  import opened BackupResolution
  import opened CaseLedger
  import opened CaseRules
  import opened ReplayWindow

  type CallId = nat
  type Body = string

  datatype Config = Config(customerId: string, scope: Scope, version: string)

  /** Everything left uninterpreted: digests, JSON decoding, text decoding. */
  datatype Env = Env(keys: Keys, configSha: Config -> Digest, bodySha: Body -> Digest,
                     decode: Body -> Option<Alert>, utf8: Body -> bool, busId: (string, string) -> string)

  const MAX_BODY: int := 65536
  const MAX_ATTEMPTS: int := 5
  const LEASE_SECONDS: int := 60

  datatype MessageState = Pending | Leased | Completed | DeadLetter

  datatype Message = Message(alertId: string, digest: Digest, body: Body, state: MessageState, attempts: int,
                             leaseUntil: Option<int>, caseId: Option<CaseId>, receivedAt: int)

  datatype BusRow = BusRow(digest: Digest, messageId: string, caseId: Option<CaseId>)

  datatype Database = Database(ledger: Ledger, bound: Option<Digest>, window: Window,
                               messages: seq<Message>, bus: map<string, BusRow>)

  datatype DeliveryError = ConfigMismatch | ReplayedNonce | ConflictingPayload | NotText | NothingToDo

  // ---------------------------------------------------------------- the transactions

  /** `_bind_config`. */
  function Bind(env: Env, db: Database, config: Config): Result<Database, DeliveryError> {
    if db.bound.None? then Ok(db.(bound := Some(env.configSha(config))))
    else if db.bound.value != env.configSha(config) then Err(ConfigMismatch)
    else Ok(db)
  }

  /** The row of an alert, if any. */
  function FindAlert(messages: seq<Message>, alertId: string): (r: Option<nat>)
    ensures r.Some? ==> r.value < |messages| && messages[r.value].alertId == alertId
    ensures r.None? ==> forall i :: 0 <= i < |messages| ==> messages[i].alertId != alertId
  {
    if messages == [] then None
    else if messages[|messages| - 1].alertId == alertId then Some(|messages| - 1)
    else FindAlert(messages[..|messages| - 1], alertId)
  }

  /** The main transaction of `enqueue`. */
  function Enqueue(env: Env, db: Database, body: Body, alertId: string, req: Request, receivedAt: int)
    : Result<Database, DeliveryError>
  {
    match Admit(db.window, req, MAX_SKEW_SECONDS, NONCE_RETENTION_SECONDS)
    case None => Err(ReplayedNonce)
    case Some(w) =>
      match FindAlert(db.messages, alertId)
      case Some(i) =>
        if db.messages[i].digest != env.bodySha(body) then Err(ConflictingPayload) else Ok(db.(window := w))
      case None =>
        if !env.utf8(body) then Err(NotText)
        else Ok(db.(window := w, messages := db.messages
                  + [Message(alertId, env.bodySha(body), body, Pending, 0, None, None, receivedAt)]))
  }

  predicate Eligible(m: Message, now: int) {
    m.state == Pending || (m.state == Leased && m.leaseUntil.Some? && m.leaseUntil.value <= now)
  }

  /** A row `ORDER BY received_at LIMIT 1` may return. */
  ghost predicate Earliest(messages: seq<Message>, now: int, i: nat) {
    && i < |messages| && Eligible(messages[i], now)
    && forall j :: 0 <= j < |messages| && Eligible(messages[j], now) ==>
         messages[i].receivedAt <= messages[j].receivedAt
  }

  /** What the leasing transaction of `work_once` makes of the row it picked. */
  function Lease(m: Message, now: int): Message {
    if m.attempts >= MAX_ATTEMPTS then m.(state := DeadLetter, leaseUntil := None)
    else m.(state := Leased, attempts := m.attempts + 1, leaseUntil := Some(now + LEASE_SECONDS))
  }

  /** The two ways `work_once` settles; `number` is the attempt the worker made. */
  function SettleFailed(m: Message, number: int): Message {
    m.(state := if number >= MAX_ATTEMPTS then DeadLetter else Pending, leaseUntil := None)
  }

  function SettleDone(m: Message, id: CaseId): Message {
    m.(state := Completed, leaseUntil := None, caseId := Some(id))
  }

  /** The first transaction of `open_delivered_case`. */
  function RecordDelivery(env: Env, db: Database, body: Body, alertId: string, messageId: string)
    : Result<Database, DeliveryError>
  {
    if alertId in db.bus && db.bus[alertId].digest != env.bodySha(body) then Err(ConflictingPayload)
    else if alertId in db.bus then Ok(db)
    else Ok(db.(bus := db.bus[alertId := BusRow(env.bodySha(body), messageId, None)]))
  }

  function StoreDelivery(db: Database, alertId: string, id: CaseId): Database {
    if alertId in db.bus then db.(bus := db.bus[alertId := db.bus[alertId].(caseId := Some(id))]) else db
  }

  /** A body either transport lets in for a configuration, and the alert it carries. */
  function Scoped(env: Env, config: Config, body: Body): Option<string> {
    if !(0 < |body| <= MAX_BODY) || env.decode(body).None? then None
    else if ParseAlert(env.decode(body).value, config.scope).Err? then None
    else env.decode(body).value.alertId
  }

  // ---------------------------------------------------------------- processes

  datatype Call =
    | Posting(config: Config, body: Body, alertId: string, req: Request, bound: bool)
    | Working(config: Config, now: int, bound: bool)
    | Holding(config: Config, index: nat, number: int)    // holds attempt `number` of a message
    | WorkOpened(index: nat, id: CaseId)
    | WorkFailed(index: nat, number: int)
    | Delivering(config: Config, body: Body, alertId: string, messageId: string, bound: bool)
    | DeliveryRecorded(config: Config, body: Body, alertId: string, messageId: string)
    | DeliveryOpened(config: Config, body: Body, alertId: string, messageId: string, id: CaseId)
    | DeliveryStored(config: Config, body: Body, alertId: string, messageId: string, id: CaseId)
    | Ended

  /** What the bus hands to a receiver for a configuration. */
  datatype Delivery = Delivery(config: Config, body: Body, messageId: string)

  predicate InDelivery(c: Call) { c.Delivering? || c.DeliveryRecorded? || c.DeliveryOpened? || c.DeliveryStored? }

  function DeliveryOf(c: Call): Delivery
    requires InDelivery(c)
  {
    Delivery(c.config, c.body, c.messageId)
  }

  /** History: configurations that bound, bodies either transport accepted, case openings by workers,
      settlements by the receiver. */
  datatype Entry =
    | Bound(config: Config)
    | InboxAccepted(alertId: string, body: Body)
    | BusAccepted(alertId: string, body: Body)
    | OpenedFor(index: nat, number: int)
    | BrokerComplete(alertId: string, delivery: Delivery)
    | BrokerDeadLetter(delivery: Delivery)
    | BrokerAbandon(delivery: Delivery)

  datatype System = System(db: Database, calls: map<CallId, Call>, trace: seq<Entry>)

  datatype Action =
    | Post(call: CallId, config: Config, body: Body, req: Request, signed: bool)
    | StartWork(call: CallId, config: Config, now: int)
    | Deliver(call: CallId, config: Config, body: Body, messageId: string)
    | BindStep(call: CallId)
    | EnqueueStep(call: CallId, receivedAt: int)
    | LeaseStep(call: CallId, index: nat)
    | OpenStep(call: CallId, newId: CaseId, now: Time, fault: bool)
    | SettleStep(call: CallId)
    | RecordStep(call: CallId)
    | StoreStep(call: CallId, fault: bool)
    | CompleteStep(call: CallId)
    | Crash(call: CallId)
    | Other(op: Op)

  function Move(s: System, p: CallId, c: Call): System { s.(calls := s.calls[p := c]) }

  function Log(s: System, e: Entry): System { s.(trace := s.trace + [e]) }

  function DoPost(env: Env, s: System, p: CallId, config: Config, body: Body, req: Request, signed: bool): System {
    if p in s.calls then s
    else if Scoped(env, config, body).None? || !InSkew(req, MAX_SKEW_SECONDS) || !ValidNonce(req.nonce) || !signed
      then Move(s, p, Ended)
    else Move(s, p, Posting(config, body, Scoped(env, config, body).value, req, false))
  }

  function DoDeliver(env: Env, s: System, p: CallId, config: Config, body: Body, messageId: string): System {
    if p in s.calls then s
    else if
      || Scoped(env, config, body).None?
      || messageId != env.busId(config.customerId, Scoped(env, config, body).value)
      then Log(Move(s, p, Ended), BrokerDeadLetter(Delivery(config, body, messageId)))
    else Move(s, p, Delivering(config, body, Scoped(env, config, body).value, messageId, false))
  }

  function DoBind(env: Env, s: System, p: CallId): System {
    if p !in s.calls then s
    else if !(s.calls[p].Posting? || s.calls[p].Working? || s.calls[p].Delivering?) || s.calls[p].bound then s
    else
      var c := s.calls[p];
      match Bind(env, s.db, c.config)
      case Ok(db) => Log(Move(s.(db := db), p, c.(bound := true)), Bound(c.config))
      case Err(_) =>
        if c.Delivering? then Log(Move(s, p, Ended), BrokerAbandon(DeliveryOf(c))) else Move(s, p, Ended)
  }

  function DoEnqueue(env: Env, s: System, p: CallId, receivedAt: int): System {
    if p !in s.calls || !s.calls[p].Posting? || !s.calls[p].bound then s
    else
      var c := s.calls[p];
      match Enqueue(env, s.db, c.body, c.alertId, c.req, receivedAt)
      case Ok(db) => Log(Move(s.(db := db), p, Ended), InboxAccepted(c.alertId, c.body))
      case Err(_) => Move(s, p, Ended)
  }

  ghost function DoLease(s: System, p: CallId, i: nat): System {
    if p !in s.calls || !s.calls[p].Working? || !s.calls[p].bound || !Earliest(s.db.messages, s.calls[p].now, i) then s
    else
      var c, m := s.calls[p], s.db.messages[i];
      Move(s.(db := s.db.(messages := s.db.messages[i := Lease(m, c.now)])), p,
           if m.attempts >= MAX_ATTEMPTS then Ended else Holding(c.config, i, m.attempts + 1))
  }

  /** `open_case`, by a worker or by the receiver. */
  ghost function DoOpen(env: Env, s: System, p: CallId, newId: CaseId, now: Time, fault: bool): System {
    if p !in s.calls then s
    else if !(s.calls[p].DeliveryRecorded? || (s.calls[p].Holding? && s.calls[p].index < |s.db.messages|)) then s
    else
      var c := s.calls[p];
      var body := if c.Holding? then s.db.messages[c.index].body else c.body;
      var found := if fault || env.decode(body).None? then Err(VerifyFailed)
                    else Ingest(env.keys, s.db.ledger, c.config.version, env.decode(body).value, c.config.scope,
                                newId, now);
      var db := if found.Ok? then s.db.(ledger := found.value.0) else s.db;
      if c.Holding? then
        var after := if found.Ok? then WorkOpened(c.index, found.value.1) else WorkFailed(c.index, c.number);
        Log(Move(s.(db := db), p, after), OpenedFor(c.index, c.number))
      else if found.Ok? then
        Move(s.(db := db), p, DeliveryOpened(c.config, c.body, c.alertId, c.messageId, found.value.1))
      else Log(Move(s, p, Ended), BrokerAbandon(DeliveryOf(c)))
  }

  function DoSettle(s: System, p: CallId): System {
    if p !in s.calls || !(s.calls[p].WorkOpened? || s.calls[p].WorkFailed?) then s
    else if s.calls[p].index >= |s.db.messages| then s
    else
      var c := s.calls[p];
      var m := s.db.messages[c.index];
      var settled := if c.WorkOpened? then SettleDone(m, c.id) else SettleFailed(m, c.number);
      Move(s.(db := s.db.(messages := s.db.messages[c.index := settled])), p, Ended)
  }

  function DoRecord(env: Env, s: System, p: CallId): System {
    if p !in s.calls || !s.calls[p].Delivering? || !s.calls[p].bound then s
    else
      var c := s.calls[p];
      match RecordDelivery(env, s.db, c.body, c.alertId, c.messageId)
      case Ok(db) =>
        Log(Move(s.(db := db), p, DeliveryRecorded(c.config, c.body, c.alertId, c.messageId)),
            BusAccepted(c.alertId, c.body))
      case Err(_) => Log(Move(s, p, Ended), BrokerDeadLetter(DeliveryOf(c)))
  }

  function DoStore(s: System, p: CallId, fault: bool): System {
    if p !in s.calls || !s.calls[p].DeliveryOpened? then s
    else
      var c := s.calls[p];
      if fault then Log(Move(s, p, Ended), BrokerAbandon(DeliveryOf(c)))
      else
        Move(s.(db := StoreDelivery(s.db, c.alertId, c.id)), p,
             DeliveryStored(c.config, c.body, c.alertId, c.messageId, c.id))
  }

  function DoComplete(s: System, p: CallId): System {
    if p !in s.calls || !s.calls[p].DeliveryStored? then s
    else Log(Move(s, p, Ended), BrokerComplete(s.calls[p].alertId, DeliveryOf(s.calls[p])))
  }

  ghost function Next(env: Env, s: System, a: Action): System {
    match a
    case Post(p, config, body, req, signed) => DoPost(env, s, p, config, body, req, signed)
    case StartWork(p, config, now) => if p in s.calls then s else Move(s, p, Working(config, now, false))
    case Deliver(p, config, body, messageId) => DoDeliver(env, s, p, config, body, messageId)
    case BindStep(p) => DoBind(env, s, p)
    case EnqueueStep(p, receivedAt) => DoEnqueue(env, s, p, receivedAt)
    case LeaseStep(p, i) => DoLease(s, p, i)
    case OpenStep(p, newId, now, fault) => DoOpen(env, s, p, newId, now, fault)
    case SettleStep(p) => DoSettle(s, p)
    case RecordStep(p) => DoRecord(env, s, p)
    case StoreStep(p, fault) => DoStore(s, p, fault)
    case CompleteStep(p) => DoComplete(s, p)
    case Crash(p) => if p in s.calls then Move(s, p, Ended) else s
    case Other(op) => s.(db := s.db.(ledger := Step(env.keys, s.db.ledger, op)))
  }

  const START: System := System(Database(EMPTY, None, EMPTY_WINDOW, [], map[]), map[], [])

  ghost function Play(env: Env, s: System, actions: seq<Action>): System
    decreases |actions|
  {
    if actions == [] then s else Play(env, Next(env, s, actions[0]), actions[1..])
  }

  // ---------------------------------------------------------------- the invariant

  ghost predicate CaseIs(l: Ledger, id: CaseId, alertId: string) { id in l.cases && l.cases[id].alertId == alertId }

  /** The body carries that alert. */
  ghost predicate Carries(env: Env, body: Body, alertId: string) {
    env.decode(body).Some? && env.decode(body).value.alertId == Some(alertId)
  }

  ghost predicate MessageOk(env: Env, l: Ledger, m: Message) {
    && m.digest == env.bodySha(m.body) && Carries(env, m.body, m.alertId)
    && 0 <= m.attempts <= MAX_ATTEMPTS
    && (m.state == DeadLetter ==> m.attempts == MAX_ATTEMPTS)
    && (m.state == Completed ==> m.caseId.Some?)
    && (m.state == Leased ==> m.leaseUntil.Some?)
    && (m.caseId.Some? ==> CaseIs(l, m.caseId.value, m.alertId))
  }

  ghost predicate BusOk(l: Ledger, bus: map<string, BusRow>) {
    forall a :: a in bus && bus[a].caseId.Some? ==> CaseIs(l, bus[a].caseId.value, a)
  }

  ghost predicate Attempted(messages: seq<Message>, i: nat, number: int) {
    i < |messages| && 1 <= number <= messages[i].attempts
  }

  /** A body of the size the transports take, carrying an alert fired on the vault of the configuration. */
  ghost predicate InScope(env: Env, config: Config, body: Body) {
    0 < |body| <= 65536 && env.decode(body).Some? && FiredOn(env.decode(body).value, config.scope)
  }

  ghost function AlertOf(env: Env, d: Delivery): string
    requires InScope(env, d.config, d.body)
  {
    env.decode(d.body).value.alertId.value
  }

  /** In scope, and under the message id of its alert. */
  ghost predicate Addressed(env: Env, d: Delivery) {
    InScope(env, d.config, d.body) && d.messageId == env.busId(d.config.customerId, AlertOf(env, d))
  }

  ghost predicate BoundTo(env: Env, db: Database, config: Config) { db.bound == Some(env.configSha(config)) }

  /** In a database of its configuration that has the alert with this body's digest. */
  ghost predicate OnRecord(env: Env, db: Database, d: Delivery) {
    && Addressed(env, d) && BoundTo(env, db, d.config)
    && AlertOf(env, d) in db.bus && db.bus[AlertOf(env, d)].digest == env.bodySha(d.body)
  }

  /** The alert is on record with another digest. */
  ghost predicate ConflictsIn(env: Env, bus: map<string, BusRow>, d: Delivery)
    requires Addressed(env, d)
  {
    AlertOf(env, d) in bus && bus[AlertOf(env, d)].digest != env.bodySha(d.body)
  }

  /** It is, in a database of the delivery's configuration. */
  ghost predicate Conflicts(env: Env, db: Database, d: Delivery) {
    Addressed(env, d) && BoundTo(env, db, d.config) && ConflictsIn(env, db.bus, d)
  }

  ghost predicate CallOk(env: Env, db: Database, c: Call) {
    match c
    case Posting(_, body, a, req, _) => Carries(env, body, a) && InSkew(req, MAX_SKEW_SECONDS)
    case Holding(_, i, n) => Attempted(db.messages, i, n)
    case WorkFailed(i, n) => Attempted(db.messages, i, n)
    case WorkOpened(i, id) => i < |db.messages| && CaseIs(db.ledger, id, db.messages[i].alertId)
    case Delivering(config, _, a, _, bound) =>
      Addressed(env, DeliveryOf(c)) && a == AlertOf(env, DeliveryOf(c)) && (bound ==> BoundTo(env, db, config))
    case DeliveryRecorded(_, _, a, _) => OnRecord(env, db, DeliveryOf(c)) && a == AlertOf(env, DeliveryOf(c))
    case DeliveryOpened(_, _, a, _, id) =>
      OnRecord(env, db, DeliveryOf(c)) && a == AlertOf(env, DeliveryOf(c)) && CaseIs(db.ledger, id, a)
    case DeliveryStored(_, _, a, _, id) =>
      && OnRecord(env, db, DeliveryOf(c)) && a == AlertOf(env, DeliveryOf(c)) && CaseIs(db.ledger, id, a)
      && db.bus[a].caseId == Some(id)
    case _ => true
  }

  /** The inbox holds the alert with that digest. */
  ghost predicate InboxHolds(messages: seq<Message>, alertId: string, digest: Digest) {
    exists i :: 0 <= i < |messages| && messages[i].alertId == alertId && messages[i].digest == digest
  }

  ghost predicate EntryOk(env: Env, db: Database, e: Entry) {
    match e
    case Bound(config) => db.bound == Some(env.configSha(config))
    case InboxAccepted(a, body) => InboxHolds(db.messages, a, env.bodySha(body))
    case BusAccepted(a, body) => a in db.bus && db.bus[a].digest == env.bodySha(body)
    case OpenedFor(i, n) => Attempted(db.messages, i, n)
    case BrokerComplete(a, d) => OnRecord(env, db, d) && a == AlertOf(env, d) && db.bus[a].caseId.Some?
    case BrokerDeadLetter(d) => !Addressed(env, d) || Conflicts(env, db, d)
    case BrokerAbandon(d) =>
      Addressed(env, d) && db.bound.Some? && (BoundTo(env, db, d.config) ==> OnRecord(env, db, d))
  }

  ghost predicate UniqueRows(messages: seq<Message>) {
    forall i, j :: 0 <= i < j < |messages| ==> messages[i].alertId != messages[j].alertId
  }

  predicate SameAttempt(c: Call, d: Call) {
    c.Holding? && d.Holding? && c.index == d.index && c.number == d.number
  }

  /** Each attempt of a message is held by one call at most and opens a case at most once. */
  ghost predicate AttemptsOnce(calls: map<CallId, Call>, trace: seq<Entry>) {
    && (forall p, q :: p in calls && q in calls && SameAttempt(calls[p], calls[q]) ==> p == q)
    && (forall p, j :: p in calls && calls[p].Holding? && 0 <= j < |trace| ==>
          trace[j] != OpenedFor(calls[p].index, calls[p].number))
    && (forall i, j :: 0 <= i < j < |trace| && trace[i].OpenedFor? ==> trace[i] != trace[j])
  }

  ghost predicate DatabaseOk(env: Env, db: Database) {
    && Inv(env.keys, db.ledger)
    && WindowInv(db.window, MAX_SKEW_SECONDS, NONCE_RETENTION_SECONDS)
    && UniqueRows(db.messages)
    && (forall i :: 0 <= i < |db.messages| ==> MessageOk(env, db.ledger, db.messages[i]))
    && BusOk(db.ledger, db.bus)
  }

  ghost predicate SystemInv(env: Env, s: System) {
    && DatabaseOk(env, s.db)
    && (forall p :: p in s.calls ==> CallOk(env, s.db, s.calls[p]))
    && (forall i :: 0 <= i < |s.trace| ==> EntryOk(env, s.db, s.trace[i]))
    && AttemptsOnce(s.calls, s.trace)
  }

  ghost predicate MessageGrows(m: Message, later: Message) {
    && later.alertId == m.alertId && later.digest == m.digest && later.body == m.body
    && later.receivedAt == m.receivedAt
    && later.attempts >= m.attempts && (m.caseId.Some? ==> later.caseId == m.caseId)
  }

  ghost predicate BusGrows(row: BusRow, later: BusRow) {
    later.digest == row.digest && later.messageId == row.messageId && (row.caseId.Some? ==> later.caseId == row.caseId)
  }

  /** What every database step leaves in place. */
  ghost predicate Grows(db: Database, later: Database) {
    && (forall id :: id in db.ledger.cases ==>
          id in later.ledger.cases && later.ledger.cases[id].alertId == db.ledger.cases[id].alertId)
    && (db.bound.Some? ==> later.bound == db.bound)
    && |db.messages| <= |later.messages|
    && (forall i :: 0 <= i < |db.messages| ==> MessageGrows(db.messages[i], later.messages[i]))
    && (forall a :: a in db.bus ==> a in later.bus && BusGrows(db.bus[a], later.bus[a]))
  }

  // ---------------------------------------------------------------- each step keeps it

  lemma DatabaseMoves(env: Env, s: System, db: Database)
    requires SystemInv(env, s) && DatabaseOk(env, db) && Grows(s.db, db)
    ensures SystemInv(env, s.(db := db))
  {
    hide DatabaseOk, Carries, AttemptsOnce, EntryOk, CallOk, Grows;
    forall p | p in s.calls ensures CallOk(env, db, s.calls[p]) { CallGrows(env, s.db, db, s.calls[p]); }
    forall i | 0 <= i < |s.trace| ensures EntryOk(env, db, s.trace[i]) { EntryGrows(env, s.db, db, s.trace[i]); }
  }

  lemma EntryGrows(env: Env, db: Database, later: Database, e: Entry)
    requires EntryOk(env, db, e) && Grows(db, later)
    ensures EntryOk(env, later, e)
  {
    if e.InboxAccepted? {
      var i :| 0 <= i < |db.messages| && db.messages[i].alertId == e.alertId
          && db.messages[i].digest == env.bodySha(e.body);
      assert MessageGrows(db.messages[i], later.messages[i]);
    }
  }

  lemma GrowsItself(db: Database)
    ensures Grows(db, db)
  {}

  lemma GrowsTransitive(db: Database, mid: Database, later: Database)
    requires Grows(db, mid) && Grows(mid, later)
    ensures Grows(db, later)
  {
    hide MessageGrows, BusGrows;
    forall i | 0 <= i < |db.messages| ensures MessageGrows(db.messages[i], later.messages[i]) {
      assert MessageGrows(db.messages[i], mid.messages[i]) && MessageGrows(mid.messages[i], later.messages[i]);
      MessageGrowsOn(db.messages[i], mid.messages[i], later.messages[i]);
    }
    forall a | a in db.bus ensures a in later.bus && BusGrows(db.bus[a], later.bus[a]) {
      BusGrowsOn(db.bus[a], mid.bus[a], later.bus[a]);
    }
  }

  lemma MessageGrowsOn(m: Message, mid: Message, later: Message)
    requires MessageGrows(m, mid) && MessageGrows(mid, later)
    ensures MessageGrows(m, later)
  {}

  lemma BusGrowsOn(m: BusRow, mid: BusRow, later: BusRow)
    requires BusGrows(m, mid) && BusGrows(mid, later)
    ensures BusGrows(m, later)
  {}

  lemma CallGrows(env: Env, db: Database, later: Database, c: Call)
    requires CallOk(env, db, c) && Grows(db, later)
    ensures CallOk(env, later, c)
  {
    hide Carries, InSkew;
  }

  /** What the transports let in, told from body and configuration. */
  lemma ScopedExactly(env: Env, config: Config, body: Body)
    ensures Scoped(env, config, body).Some? <==> InScope(env, config, body)
    ensures InScope(env, config, body) ==> Scoped(env, config, body) == env.decode(body).value.alertId
    ensures forall a :: Scoped(env, config, body) == Some(a) ==> Carries(env, body, a)
  {
    if env.decode(body).Some? { ParseExactly(env.decode(body).value, config.scope); }
    hide ParseAlert;
  }

  lemma AddressedCarries(env: Env, d: Delivery)
    requires Addressed(env, d)
    ensures Carries(env, d.body, AlertOf(env, d))
  {}

  /** A call moves to a point where it holds no attempt. */
  lemma CallMoves(env: Env, s: System, p: CallId, c: Call)
    requires SystemInv(env, s) && CallOk(env, s.db, c) && !c.Holding?
    ensures SystemInv(env, Move(s, p, c))
  {
    hide DatabaseOk, CallOk, EntryOk;
  }

  lemma EntryLogged(env: Env, s: System, e: Entry)
    requires SystemInv(env, s) && EntryOk(env, s.db, e) && !e.OpenedFor?
    ensures SystemInv(env, Log(s, e))
  {
    hide DatabaseOk, CallOk, EntryOk;
  }

  lemma LedgerGrows(env: Env, db: Database, l: Ledger)
    requires DatabaseOk(env, db) && Inv(env.keys, l) && Extends(db.ledger, l)
    ensures DatabaseOk(env, db.(ledger := l)) && Grows(db, db.(ledger := l))
  {
    hide Inv, WindowInv, UniqueRows, History, Carries;
    forall id | id in db.ledger.cases
      ensures id in l.cases && l.cases[id].alertId == db.ledger.cases[id].alertId
    {}
  }

  lemma MessageChanges(env: Env, db: Database, i: nat, m: Message)
    requires DatabaseOk(env, db) && i < |db.messages| && MessageOk(env, db.ledger, m) && MessageGrows(db.messages[i], m)
    ensures DatabaseOk(env, db.(messages := db.messages[i := m])) && Grows(db, db.(messages := db.messages[i := m]))
  {
    hide Inv, WindowInv, Carries, CaseIs, MessageOk;
  }

  lemma PostHolds(env: Env, s: System, p: CallId, config: Config, body: Body, req: Request, signed: bool)
    requires SystemInv(env, s)
    ensures SystemInv(env, DoPost(env, s, p, config, body, req, signed))
    ensures Grows(s.db, DoPost(env, s, p, config, body, req, signed).db)
  {
    hide SystemInv;
    GrowsItself(s.db);
    if p !in s.calls {
      ScopedExactly(env, config, body);
      hide Scoped;
      CallMoves(env, s, p, DoPost(env, s, p, config, body, req, signed).calls[p]);
    }
  }

  lemma DeliverHolds(env: Env, s: System, p: CallId, config: Config, body: Body, messageId: string)
    requires SystemInv(env, s)
    ensures SystemInv(env, DoDeliver(env, s, p, config, body, messageId))
    ensures Grows(s.db, DoDeliver(env, s, p, config, body, messageId).db)
  {
    hide SystemInv;
    GrowsItself(s.db);
    if p !in s.calls {
      ScopedExactly(env, config, body);
      hide Scoped, InScope;
      var s' := DoDeliver(env, s, p, config, body, messageId);
      CallMoves(env, s, p, s'.calls[p]);
      if s'.calls[p] == Ended {
        EntryLogged(env, Move(s, p, Ended), BrokerDeadLetter(Delivery(config, body, messageId)));
      }
    }
  }

  lemma BindOk(env: Env, db: Database, config: Config)
    requires DatabaseOk(env, db) && Bind(env, db, config).Ok?
    ensures var later := Bind(env, db, config).value;
            DatabaseOk(env, later) && Grows(db, later) && later.bound == Some(env.configSha(config))
  {
    hide Inv, WindowInv, MessageOk, BusOk;
  }

  lemma BindFails(env: Env, db: Database, config: Config)
    requires Bind(env, db, config).Err?
    ensures db.bound.Some? && !BoundTo(env, db, config)
  {}

  lemma BindHolds(env: Env, s: System, p: CallId)
    requires SystemInv(env, s)
    ensures SystemInv(env, DoBind(env, s, p))
    ensures Grows(s.db, DoBind(env, s, p).db)
  {
    hide SystemInv, DatabaseOk, Grows, Bind, Carries, InSkew, InScope;
    GrowsItself(s.db);
    if p in s.calls && (s.calls[p].Posting? || s.calls[p].Working? || s.calls[p].Delivering?) && !s.calls[p].bound {
      var c, r := s.calls[p], Bind(env, s.db, s.calls[p].config);
      CallIsOk(env, s, p);
      DatabaseIsOk(env, s);
      if r.Ok? {
        BindOk(env, s.db, c.config);
        DatabaseMoves(env, s, r.value);
        CallMoves(env, s.(db := r.value), p, c.(bound := true));
        EntryLogged(env, Move(s.(db := r.value), p, c.(bound := true)), Bound(c.config));
      } else {
        CallMoves(env, s, p, Ended);
        BindFails(env, s.db, c.config);
        if c.Delivering? { EntryLogged(env, Move(s, p, Ended), BrokerAbandon(DeliveryOf(c))); }
      }
    }
  }

  lemma EnqueueOk(env: Env, db: Database, body: Body, alertId: string, req: Request, receivedAt: int)
    requires DatabaseOk(env, db) && Carries(env, body, alertId) && Enqueue(env, db, body, alertId, req, receivedAt).Ok?
    ensures var later := Enqueue(env, db, body, alertId, req, receivedAt).value;
            && DatabaseOk(env, later) && Grows(db, later)
            && InboxHolds(later.messages, alertId, env.bodySha(body))
  {
    hide Inv, WindowInv, Carries, Admit;
    var later := Enqueue(env, db, body, alertId, req, receivedAt).value;
    AdmitKeeps(db.window, req, MAX_SKEW_SECONDS, NONCE_RETENTION_SECONDS);
    if FindAlert(db.messages, alertId).None? {
      var m := later.messages[|db.messages|];
      assert MessageOk(env, db.ledger, m);
      hide MessageOk;
      assert forall i :: 0 <= i < |db.messages| ==> later.messages[i] == db.messages[i];
    }
  }

  lemma EnqueueHolds(env: Env, s: System, p: CallId, receivedAt: int)
    requires SystemInv(env, s)
    ensures SystemInv(env, DoEnqueue(env, s, p, receivedAt))
    ensures Grows(s.db, DoEnqueue(env, s, p, receivedAt).db)
  {
    hide SystemInv, Enqueue, DatabaseOk, Grows;
    GrowsItself(s.db);
    if p in s.calls && s.calls[p].Posting? && s.calls[p].bound {
      var c := s.calls[p];
      CallIsOk(env, s, p);
      DatabaseIsOk(env, s);
      var r := Enqueue(env, s.db, c.body, c.alertId, c.req, receivedAt);
      if r.Ok? {
        EnqueueOk(env, s.db, c.body, c.alertId, c.req, receivedAt);
        DatabaseMoves(env, s, r.value);
        CallMoves(env, s.(db := r.value), p, Ended);
        EntryLogged(env, Move(s.(db := r.value), p, Ended), InboxAccepted(c.alertId, c.body));
      } else {
        CallMoves(env, s, p, Ended);
      }
    }
  }

  lemma DatabaseIsOk(env: Env, s: System)
    requires SystemInv(env, s)
    ensures DatabaseOk(env, s.db)
  {}

  lemma CallIsOk(env: Env, s: System, p: CallId)
    requires SystemInv(env, s) && p in s.calls
    ensures CallOk(env, s.db, s.calls[p])
  {
    hide DatabaseOk, CallOk;
  }

  lemma MessageIsOk(env: Env, db: Database, i: nat)
    requires DatabaseOk(env, db) && i < |db.messages|
    ensures MessageOk(env, db.ledger, db.messages[i])
  {
    hide Inv, WindowInv, MessageOk;
  }

  /** A new attempt is one no call holds and no case was opened for. */
  lemma AttemptIsNew(env: Env, s: System, p: CallId, c: Call)
    requires SystemInv(env, s) && c.Holding? && c.index < |s.db.messages| && c.number > s.db.messages[c.index].attempts
    ensures AttemptsOnce(s.calls[p := c], s.trace)
  {
    hide DatabaseOk;
    forall q | q in s.calls ensures !SameAttempt(s.calls[q], c) { assert CallOk(env, s.db, s.calls[q]); }
    forall j | 0 <= j < |s.trace| ensures s.trace[j] != OpenedFor(c.index, c.number) {
      assert EntryOk(env, s.db, s.trace[j]);
    }
  }

  lemma LeaseHolds(env: Env, s: System, p: CallId, i: nat)
    requires SystemInv(env, s)
    ensures SystemInv(env, DoLease(s, p, i))
    ensures Grows(s.db, DoLease(s, p, i).db)
  {
    hide SystemInv, DatabaseOk, Carries, AttemptsOnce, Grows;
    GrowsItself(s.db);
    if p in s.calls && s.calls[p].Working? && s.calls[p].bound && Earliest(s.db.messages, s.calls[p].now, i) {
      DatabaseIsOk(env, s);
      MessageIsOk(env, s.db, i);
      var c, m := s.calls[p], s.db.messages[i];
      var db := s.db.(messages := s.db.messages[i := Lease(m, c.now)]);
      MessageChanges(env, s.db, i, Lease(m, c.now));
      DatabaseMoves(env, s, db);
      if m.attempts >= MAX_ATTEMPTS {
        CallMoves(env, s.(db := db), p, Ended);
      } else {
        AttemptIsNew(env, s, p, Holding(c.config, i, m.attempts + 1));
        AttemptTaken(env, s.(db := db), p, Holding(c.config, i, m.attempts + 1));
      }
    }
  }

  lemma AttemptTaken(env: Env, s: System, p: CallId, c: Call)
    requires SystemInv(env, s) && CallOk(env, s.db, c) && AttemptsOnce(s.calls[p := c], s.trace)
    ensures SystemInv(env, Move(s, p, c))
  {
    hide DatabaseOk, CallOk, EntryOk, AttemptsOnce;
  }

  lemma AttemptSpent(calls: map<CallId, Call>, trace: seq<Entry>, p: CallId, after: Call)
    requires AttemptsOnce(calls, trace) && p in calls && calls[p].Holding? && !after.Holding?
    ensures AttemptsOnce(calls[p := after], trace + [OpenedFor(calls[p].index, calls[p].number)])
  {
    forall q | q in calls && q != p ensures !SameAttempt(calls[q], calls[p]) {}
  }

  /** Opening a case uses up the attempt. */
  lemma AttemptUsed(env: Env, s: System, p: CallId, after: Call)
    requires SystemInv(env, s) && p in s.calls && s.calls[p].Holding? && !after.Holding? && CallOk(env, s.db, after)
    ensures SystemInv(env, Log(Move(s, p, after), OpenedFor(s.calls[p].index, s.calls[p].number)))
  {
    hide DatabaseOk, CallOk, EntryOk, AttemptsOnce;
    CallIsOk(env, s, p);
    HeldIsAttempted(env, s.db, s.calls[p]);
    AttemptSpent(s.calls, s.trace, p, after);
  }

  lemma HeldIsAttempted(env: Env, db: Database, c: Call)
    requires c.Holding? && CallOk(env, db, c)
    ensures EntryOk(env, db, OpenedFor(c.index, c.number))
  {}

  lemma OpenHolds(env: Env, s: System, p: CallId, newId: CaseId, now: Time, fault: bool)
    requires SystemInv(env, s)
    ensures SystemInv(env, DoOpen(env, s, p, newId, now, fault))
    ensures Grows(s.db, DoOpen(env, s, p, newId, now, fault).db)
  {
    hide SystemInv, DatabaseOk, Ingest, Inv, Extends, Grows, AttemptsOnce, UniqueAlerts, InScope;
    GrowsItself(s.db);
    if p in s.calls && (s.calls[p].DeliveryRecorded? || (s.calls[p].Holding? && s.calls[p].index < |s.db.messages|)) {
      CallIsOk(env, s, p);
      DatabaseIsOk(env, s);
      var c := s.calls[p];
      if c.Holding? { MessageIsOk(env, s.db, c.index); } else { AddressedCarries(env, DeliveryOf(c)); }
      var body := if c.Holding? then s.db.messages[c.index].body else c.body;
      var alertId := if c.Holding? then s.db.messages[c.index].alertId else c.alertId;
      assert Carries(env, body, alertId);
      var r := if fault then Err(VerifyFailed)
               else Ingest(env.keys, s.db.ledger, c.config.version, env.decode(body).value, c.config.scope, newId, now);
      if r.Ok? {
        OpenedIs(env, s.db, c.config, body, alertId, newId, now);
        var db := s.db.(ledger := r.value.0);
        DatabaseMoves(env, s, db);
        if c.Holding? { AttemptUsed(env, s.(db := db), p, WorkOpened(c.index, r.value.1)); }
        else { CallMoves(env, s.(db := db), p, DeliveryOpened(c.config, c.body, c.alertId, c.messageId, r.value.1)); }
      } else if c.Holding? {
        AttemptUsed(env, s, p, WorkFailed(c.index, c.number));
      } else {
        CallMoves(env, s, p, Ended);
        EntryLogged(env, Move(s, p, Ended), BrokerAbandon(DeliveryOf(c)));
      }
    }
  }

  /** The case opened for a body is the case of the alert it carries. */
  lemma OpenedIs(env: Env, db: Database, config: Config, body: Body, alertId: string, newId: CaseId, now: Time)
    requires DatabaseOk(env, db) && Carries(env, body, alertId)
    requires Ingest(env.keys, db.ledger, config.version, env.decode(body).value, config.scope, newId, now).Ok?
    ensures var alert := env.decode(body).value;
            var (l, id) := Ingest(env.keys, db.ledger, config.version, alert, config.scope, newId, now).value;
            && DatabaseOk(env, db.(ledger := l)) && Grows(db, db.(ledger := l)) && CaseIs(l, id, alertId)
  {
    hide Ingest, Inv, Extends, ParseAlert, WindowInv, MessageOk, BusOk, UniqueRows, Grows;
    var alert := env.decode(body).value;
    var (l, id) := Ingest(env.keys, db.ledger, config.version, alert, config.scope, newId, now).value;
    IngestParses(env.keys, db.ledger, config.version, alert, config.scope, newId, now);
    IngestStep(env.keys, db.ledger, config.version, alert, config.scope, newId, now);
    LedgerGrows(env, db, l);
  }

  lemma IngestParses(k: Keys, l: Ledger, version: string, alert: Alert, scope: Scope, newId: CaseId, now: Time)
    requires Ingest(k, l, version, alert, scope, newId, now).Ok?
    ensures ParseAlert(alert, scope).Ok? && alert.alertId == Some(ParseAlert(alert, scope).value.alertId)
  {
    hide WithEvent, VaultPath;
  }

  lemma SettleHolds(env: Env, s: System, p: CallId)
    requires SystemInv(env, s)
    ensures SystemInv(env, DoSettle(s, p))
    ensures Grows(s.db, DoSettle(s, p).db)
  {
    hide SystemInv, DatabaseOk, Carries, Inv, Grows, EntryOk;
    GrowsItself(s.db);
    if p in s.calls && (s.calls[p].WorkOpened? || s.calls[p].WorkFailed?) && s.calls[p].index < |s.db.messages| {
      CallIsOk(env, s, p);
      DatabaseIsOk(env, s);
      var c, i := s.calls[p], s.calls[p].index;
      MessageIsOk(env, s.db, i);
      var m := s.db.messages[i];
      var settled := if c.WorkOpened? then SettleDone(m, c.id) else SettleFailed(m, c.number);
      if c.WorkOpened? && m.caseId.Some? { OneCase(env, s.db, m.alertId, c.id, m.caseId.value); }
      MessageChanges(env, s.db, i, settled);
      var db := s.db.(messages := s.db.messages[i := settled]);
      DatabaseMoves(env, s, db);
      CallMoves(env, s.(db := db), p, Ended);
    }
  }

  lemma OneCase(env: Env, db: Database, alertId: string, a: CaseId, b: CaseId)
    requires DatabaseOk(env, db) && CaseIs(db.ledger, a, alertId) && CaseIs(db.ledger, b, alertId)
    ensures a == b
  {
    hide WindowInv, MessageOk, BusOk, CaseOk;
  }

  lemma BusChanges(env: Env, db: Database, a: string, row: BusRow)
    requires DatabaseOk(env, db) && (row.caseId.Some? ==> CaseIs(db.ledger, row.caseId.value, a))
    requires a in db.bus ==> BusGrows(db.bus[a], row)
    ensures DatabaseOk(env, db.(bus := db.bus[a := row])) && Grows(db, db.(bus := db.bus[a := row]))
  {
    hide Inv, WindowInv, MessageOk, CaseIs, UniqueRows;
  }

  lemma RecordHolds(env: Env, s: System, p: CallId)
    requires SystemInv(env, s)
    ensures SystemInv(env, DoRecord(env, s, p))
    ensures Grows(s.db, DoRecord(env, s, p).db)
  {
    hide SystemInv, DatabaseOk, Carries, InScope, Grows;
    GrowsItself(s.db);
    if p in s.calls && s.calls[p].Delivering? && s.calls[p].bound {
      CallIsOk(env, s, p);
      DatabaseIsOk(env, s);
      var c := s.calls[p];
      var r := RecordDelivery(env, s.db, c.body, c.alertId, c.messageId);
      if r.Ok? {
        if c.alertId !in s.db.bus {
          BusChanges(env, s.db, c.alertId, BusRow(env.bodySha(c.body), c.messageId, None));
          DatabaseMoves(env, s, r.value);
        }
        var moved := DeliveryRecorded(c.config, c.body, c.alertId, c.messageId);
        CallMoves(env, s.(db := r.value), p, moved);
        EntryLogged(env, Move(s.(db := r.value), p, moved), BusAccepted(c.alertId, c.body));
      } else {
        CallMoves(env, s, p, Ended);
        EntryLogged(env, Move(s, p, Ended), BrokerDeadLetter(DeliveryOf(c)));
      }
    }
  }

  lemma StoreHolds(env: Env, s: System, p: CallId, fault: bool)
    requires SystemInv(env, s)
    ensures SystemInv(env, DoStore(s, p, fault))
    ensures Grows(s.db, DoStore(s, p, fault).db)
  {
    hide SystemInv, DatabaseOk, Carries, Grows, CaseIs, InScope;
    GrowsItself(s.db);
    if p in s.calls && s.calls[p].DeliveryOpened? {
      CallIsOk(env, s, p);
      DatabaseIsOk(env, s);
      var c := s.calls[p];
      if fault {
        CallMoves(env, s, p, Ended);
        EntryLogged(env, Move(s, p, Ended), BrokerAbandon(DeliveryOf(c)));
      } else {
        if s.db.bus[c.alertId].caseId.Some? { BusCase(env, s.db, c.alertId, c.id); }
        var db := StoreDelivery(s.db, c.alertId, c.id);
        BusChanges(env, s.db, c.alertId, db.bus[c.alertId]);
        DatabaseMoves(env, s, db);
        CallMoves(env, s.(db := db), p, DeliveryStored(c.config, c.body, c.alertId, c.messageId, c.id));
      }
    }
  }

  lemma BusCase(env: Env, db: Database, a: string, id: CaseId)
    requires DatabaseOk(env, db) && CaseIs(db.ledger, id, a) && a in db.bus && db.bus[a].caseId.Some?
    ensures db.bus[a].caseId == Some(id)
  {
    assert CaseIs(db.ledger, db.bus[a].caseId.value, a);
    hide DatabaseOk;
    OneCase(env, db, a, id, db.bus[a].caseId.value);
  }

  lemma CompleteHolds(env: Env, s: System, p: CallId)
    requires SystemInv(env, s)
    ensures SystemInv(env, DoComplete(s, p))
    ensures Grows(s.db, DoComplete(s, p).db)
  {
    hide SystemInv, DatabaseOk, CaseIs, Carries, InSkew, InScope;
    GrowsItself(s.db);
    if p in s.calls && s.calls[p].DeliveryStored? {
      CallIsOk(env, s, p);
      CallMoves(env, s, p, Ended);
      EntryLogged(env, Move(s, p, Ended), BrokerComplete(s.calls[p].alertId, DeliveryOf(s.calls[p])));
    }
  }

  lemma IdleHolds(env: Env, s: System, p: CallId, c: Call)
    requires SystemInv(env, s) && (c.Working? || c.Ended?)
    ensures SystemInv(env, Move(s, p, c))
  {
    hide SystemInv;
    CallMoves(env, s, p, c);
  }

  lemma OtherHolds(env: Env, s: System, op: Op)
    requires SystemInv(env, s)
    ensures SystemInv(env, s.(db := s.db.(ledger := Step(env.keys, s.db.ledger, op))))
    ensures Grows(s.db, s.db.(ledger := Step(env.keys, s.db.ledger, op)))
  {
    hide SystemInv, Inv, Extends, Step, WindowInv, MessageOk, BusOk, UniqueRows;
    DatabaseIsOk(env, s);
    StepHolds(env.keys, s.db.ledger, op);
    hide DatabaseOk;
    LedgerGrows(env, s.db, Step(env.keys, s.db.ledger, op));
    DatabaseMoves(env, s, s.db.(ledger := Step(env.keys, s.db.ledger, op)));
  }

  lemma NextHolds(env: Env, s: System, a: Action)
    requires SystemInv(env, s)
    ensures SystemInv(env, Next(env, s, a)) && Grows(s.db, Next(env, s, a).db)
  {
    hide SystemInv, Grows, DoPost, DoDeliver, DoBind, DoEnqueue, DoLease, DoOpen, DoSettle, DoRecord, DoStore,
        DoComplete, Step;
    GrowsItself(s.db);
    match a
    case Post(p, config, body, req, signed) => PostHolds(env, s, p, config, body, req, signed);
    case StartWork(p, config, now) => IdleHolds(env, s, p, Working(config, now, false));
    case Deliver(p, config, body, messageId) => DeliverHolds(env, s, p, config, body, messageId);
    case BindStep(p) => BindHolds(env, s, p);
    case EnqueueStep(p, receivedAt) => EnqueueHolds(env, s, p, receivedAt);
    case LeaseStep(p, i) => LeaseHolds(env, s, p, i);
    case OpenStep(p, newId, now, fault) => OpenHolds(env, s, p, newId, now, fault);
    case SettleStep(p) => SettleHolds(env, s, p);
    case RecordStep(p) => RecordHolds(env, s, p);
    case StoreStep(p, fault) => StoreHolds(env, s, p, fault);
    case CompleteStep(p) => CompleteHolds(env, s, p);
    case Crash(p) => IdleHolds(env, s, p, Ended);
    case Other(op) => OtherHolds(env, s, op);
  }

  lemma {:induction false} PlayHolds(env: Env, s: System, actions: seq<Action>)
    requires SystemInv(env, s)
    ensures SystemInv(env, Play(env, s, actions)) && Grows(s.db, Play(env, s, actions).db)
    decreases |actions|
  {
    hide SystemInv, Next, Grows;
    GrowsItself(s.db);
    if actions != [] {
      NextHolds(env, s, actions[0]);
      PlayHolds(env, Next(env, s, actions[0]), actions[1..]);
      GrowsTransitive(s.db, Next(env, s, actions[0]).db, Play(env, s, actions).db);
    }
  }

  lemma ReachableSystem(env: Env, actions: seq<Action>)
    ensures SystemInv(env, Play(env, START, actions))
  {
    PlayHolds(env, START, actions);
  }
}
