/** Managed pilots: onboarding a request once, activating once, and the work and recovery drills that
    may be recorded for an active pilot. */
module PilotDelivery {
  import B = BackupResolution
  import opened Common
  import opened TextOrder
  import opened Calendar
  import opened Money
  import opened ServiceReport

  type Scope = B.Scope

  /** `_matches`: the five resource keys, not the incident. */
  predicate SameResource(a: Scope, b: Scope) {
    && a.tenantId == b.tenantId && a.subscriptionId == b.subscriptionId && a.resourceGroup == b.resourceGroup
    && a.vaultName == b.vaultName && a.vmName == b.vmName
  }

  datatype PilotRequest = PilotRequest(partner: string, customer: string, vmCount: int, onboarded: bool)

  datatype Pilot = Pilot(request: string, partner: string, customer: string, scope: Scope, contractRef: string,
                         terms: Terms, active: bool)

  /** A row of work, with the scope of the case it was done on. */
  datatype Work = Work(pilot: string, resource: Scope, note: string, entry: Entry)

  datatype DrillKey = DrillKey(pilot: string, sha: string)

  /** A row of a drill, with the scope of the report it came from. */
  datatype DrillRow = DrillRow(workload: string, passed: bool, elapsedSeconds: int, actualRto: Option<int>,
                               actualRpo: int, checkedAt: Stamp, resource: Scope)

  datatype Desk = Desk(requests: map<string, PilotRequest>, pilots: map<string, Pilot>, work: seq<Work>,
                       drills: map<DrillKey, DrillRow>, followups: set<DrillKey>, now: Stamp)

  function NewDesk(now: Stamp): Desk { Desk(map[], map[], [], map[], {}, now) }

  datatype DeliveryError =
    | BadCustomer | BadCount | NotAuthenticated | BadReference | ShortToken | BadMoney | FreePilot
    | NotRequested | OneVmOnly | IdTaken | PilotNotFound | NotAwaitingActivation | SnapshotScope
    | EvidenceRequired | NotActive | CaseNotFound | OutsideScope | BadMinutes | BadNote | PredatesActivation

  // ---------------------------------------------------------------- one transaction each

  /** What a request for a pilot brings; the customer is None when it is no identifier. */
  datatype Ask = Ask(partner: string, customer: Option<string>, vmCount: int, authenticated: bool)

  function TakeRequest(d: Desk, id: string, ask: Ask): Result<PilotRequest, DeliveryError> {
    if ask.customer.None? then Err(BadCustomer)
    else if !(1 <= ask.vmCount <= 100) then Err(BadCount)
    else if !ask.authenticated then Err(NotAuthenticated)
    else if id in d.requests then Err(IdTaken)
    else Ok(PilotRequest(ask.partner, ask.customer.value, ask.vmCount, false))
  }

  /** What an onboarding call brings; the reference is None when it is blank or too long. */
  datatype Offer = Offer(request: string, scope: Scope, contractRef: Option<string>, fee: string, hourly: string,
                         token: string)

  const TOKEN_LENGTH := 32

  function Onboard(d: Desk, id: string, o: Offer): Result<Pilot, DeliveryError> {
    var monthly, labor := CentsOf(o.fee), CentsOf(o.hourly);
    if o.contractRef.None? then Err(BadReference)
    else if |o.token| < TOKEN_LENGTH then Err(ShortToken)
    else if monthly.Err? || labor.Err? then Err(BadMoney)
    else if monthly.value == 0 then Err(FreePilot)
    else if o.request !in d.requests || d.requests[o.request].onboarded then Err(NotRequested)
    else if d.requests[o.request].vmCount != 1 then Err(OneVmOnly)
    else if id in d.pilots then Err(IdTaken)
    else
      var r := d.requests[o.request];
      var terms := Terms(monthly.value, labor.value, None);
      Ok(Pilot(o.request, r.partner, r.customer, o.scope, o.contractRef.value, terms, false))
  }

  /** `observed`: the snapshot and its four receipts are observed and account-verified. */
  function Activate(d: Desk, id: string, snapshot: Scope, observed: bool, at: Stamp): Result<Pilot, DeliveryError> {
    if id !in d.pilots then Err(PilotNotFound)
    else if d.pilots[id].active then Err(NotAwaitingActivation)
    else if snapshot != d.pilots[id].scope then Err(SnapshotScope)
    else if !observed then Err(EvidenceRequired)
    else Ok(d.pilots[id].(active := true, terms := d.pilots[id].terms.(activeAt := Some(at))))
  }

  /** `resource` is the scope of the case, None when there is no such case; `note` is None when blank or
      too long. */
  function RecordWork(d: Desk, id: string, resource: Option<Scope>, minutes: int, note: Option<string>, at: Stamp)
    : Result<Work, DeliveryError>
  {
    if id !in d.pilots then Err(PilotNotFound)
    else if !d.pilots[id].active then Err(NotActive)
    else if resource.None? then Err(CaseNotFound)
    else if !SameResource(d.pilots[id].scope, resource.value) then Err(OutsideScope)
    else if !(1 <= minutes <= 1440) then Err(BadMinutes)
    else if note.None? then Err(BadNote)
    else Ok(Work(id, resource.value, note.value, Entry(at, minutes)))
  }

  function CheckDrill(d: Desk, id: string, row: DrillRow): Result<bool, DeliveryError>
    requires ValidStamp(row.checkedAt) && (id in d.pilots ==> ValidTerms(d.pilots[id].terms))
  {
    if id !in d.pilots then Err(PilotNotFound)
    else if !d.pilots[id].active || d.pilots[id].terms.activeAt.None? then Err(NotActive)
    else if !SameResource(d.pilots[id].scope, row.resource) then Err(OutsideScope)
    else if !NotAfter(d.pilots[id].terms.activeAt.value, row.checkedAt) then Err(PredatesActivation)
    else Ok(true)
  }

  /** The two `INSERT OR IGNORE` statements of `record_result`. */
  function AddDrill(d: Desk, key: DrillKey, row: DrillRow): Desk {
    d.(drills := if key in d.drills then d.drills else d.drills[key := row],
       followups := if row.passed then d.followups else d.followups + {key})
  }

  // ---------------------------------------------------------------- runs

  datatype Action =
    | Requesting(id: string, ask: Ask)
    | Onboarding(id: string, offer: Offer)
    | Activating(id: string, snapshot: Scope, observed: bool)
    | Working(id: string, resource: Option<Scope>, minutes: int, note: Option<string>)
    | Drilling(id: string, sha: string, row: DrillRow)

  datatype Call = Call(at: Stamp, action: Action)

  predicate ValidCall(c: Call) { ValidStamp(c.at) && (c.action.Drilling? ==> ValidStamp(c.action.row.checkedAt)) }

  ghost predicate ValidDesk(d: Desk) {
    ValidStamp(d.now) && forall id :: id in d.pilots ==> ValidTerms(d.pilots[id].terms)
  }

  function AfterRequest(d: Desk, id: string, ask: Ask): Desk {
    var r := TakeRequest(d, id, ask);
    if r.Err? then d else d.(requests := d.requests[id := r.value])
  }

  /** The pilot is inserted and its request marked. */
  function WithPilot(d: Desk, id: string, p: Pilot): Desk
    requires p.request in d.requests
  {
    d.(pilots := d.pilots[id := p], requests := d.requests[p.request := d.requests[p.request].(onboarded := true)])
  }

  function AfterOnboard(d: Desk, id: string, o: Offer): Desk {
    var p := Onboard(d, id, o);
    if p.Err? then d
    else WithPilot(d, id, p.value)
  }

  function AfterActivate(d: Desk, id: string, snapshot: Scope, observed: bool, at: Stamp): Desk {
    var p := Activate(d, id, snapshot, observed, at);
    if p.Err? then d else d.(pilots := d.pilots[id := p.value])
  }

  function AfterWork(d: Desk, id: string, resource: Option<Scope>, minutes: int, note: Option<string>,
                     at: Stamp): Desk {
    var w := RecordWork(d, id, resource, minutes, note, at);
    if w.Err? then d else d.(work := d.work + [w.value])
  }

  function AfterDrill(d: Desk, id: string, sha: string, row: DrillRow): Desk
    requires ValidStamp(row.checkedAt) && (id in d.pilots ==> ValidTerms(d.pilots[id].terms))
  {
    if CheckDrill(d, id, row).Err? then d else AddDrill(d, DrillKey(id, sha), row)
  }

  function Perform(d: Desk, c: Call): Desk
    requires ValidCall(c) && ValidDesk(d)
  {
    match c.action
    case Requesting(id, ask) => AfterRequest(d, id, ask)
    case Onboarding(id, offer) => AfterOnboard(d, id, offer)
    case Activating(id, snapshot, observed) => AfterActivate(d, id, snapshot, observed, c.at)
    case Working(id, resource, minutes, note) => AfterWork(d, id, resource, minutes, note, c.at)
    case Drilling(id, sha, row) => AfterDrill(d, id, sha, row)
  }

  function Step(d: Desk, c: Call): (e: Desk)
    requires ValidCall(c) && ValidDesk(d)
    ensures ValidDesk(e)
  {
    Perform(d, c).(now := c.at)
  }

  ghost predicate ValidCalls(calls: seq<Call>) { forall i :: 0 <= i < |calls| ==> ValidCall(calls[i]) }

  ghost function Run(d: Desk, calls: seq<Call>): (e: Desk)
    requires ValidCalls(calls) && ValidDesk(d)
    ensures ValidDesk(e)
  {
    if calls == [] then d else Step(Run(d, calls[..|calls| - 1]), calls[|calls| - 1])
  }

  /** The clock of the calls never goes back. */
  ghost predicate Chronological(d: Desk, calls: seq<Call>)
    requires ValidCalls(calls) && ValidDesk(d)
  {
    calls != [] ==>
      Chronological(d, calls[..|calls| - 1]) && NotAfter(Run(d, calls[..|calls| - 1]).now, calls[|calls| - 1].at)
  }

  class Tables {
    var requests: map<string, PilotRequest>
    var pilots: map<string, Pilot>
    var work: seq<Work>
    var drills: map<DrillKey, DrillRow>
    var followups: set<DrillKey>

    ghost function View(now: Stamp): Desk
      reads this
    {
      Desk(requests, pilots, work, drills, followups, now)
    }

    constructor (ghost now: Stamp)
      ensures View(now) == NewDesk(now)
    {
      requests, pilots, work, drills, followups := map[], map[], [], map[], {};
    }

    method RequestPilot(c: Call, ghost was: Stamp) returns (r: Result<PilotRequest, DeliveryError>)
      requires c.action.Requesting? && ValidCall(c) && ValidDesk(View(was))
      modifies this`requests
      ensures View(c.at) == Step(old(View(was)), c)
      ensures r == TakeRequest(old(View(was)), c.action.id, c.action.ask)
    {
      var id, ask := c.action.id, c.action.ask;
      if ask.customer.None? { return Err(BadCustomer); }
      if !(1 <= ask.vmCount <= 100) { return Err(BadCount); }
      if !ask.authenticated { return Err(NotAuthenticated); }
      if id in requests { return Err(IdTaken); }
      var taken := PilotRequest(ask.partner, ask.customer.value, ask.vmCount, false);
      requests := requests[id := taken];
      return Ok(taken);
    }

    method OnboardPilot(c: Call, ghost was: Stamp) returns (r: Result<Pilot, DeliveryError>)
      requires c.action.Onboarding? && ValidCall(c) && ValidDesk(View(was))
      modifies this
      ensures View(c.at) == Step(old(View(was)), c)
      ensures r == Onboard(old(View(was)), c.action.id, c.action.offer)
    {
      var id, o := c.action.id, c.action.offer;
      if o.contractRef.None? { return Err(BadReference); }
      if |o.token| < TOKEN_LENGTH { return Err(ShortToken); }
      var monthly, labor := CentsOf(o.fee), CentsOf(o.hourly);
      if monthly.Err? || labor.Err? { return Err(BadMoney); }
      if monthly.value == 0 { return Err(FreePilot); }
      if o.request !in requests || requests[o.request].onboarded { return Err(NotRequested); }
      var q := requests[o.request];
      if q.vmCount != 1 { return Err(OneVmOnly); }
      if id in pilots { return Err(IdTaken); }
      var pilot := Pilot(o.request, q.partner, q.customer, o.scope, o.contractRef.value,
                         Terms(monthly.value, labor.value, None), false);
      pilots := pilots[id := pilot];
      requests := requests[o.request := q.(onboarded := true)];
      return Ok(pilot);
    }

    method ActivatePilot(c: Call, ghost was: Stamp) returns (r: Result<Pilot, DeliveryError>)
      requires c.action.Activating? && ValidCall(c) && ValidDesk(View(was))
      modifies this`pilots
      ensures View(c.at) == Step(old(View(was)), c)
      ensures r == Activate(old(View(was)), c.action.id, c.action.snapshot, c.action.observed, c.at)
    {
      var a := c.action;
      if a.id !in pilots { return Err(PilotNotFound); }
      var pilot := pilots[a.id];
      if pilot.active { return Err(NotAwaitingActivation); }
      if a.snapshot != pilot.scope { return Err(SnapshotScope); }
      if !a.observed { return Err(EvidenceRequired); }
      pilots := pilots[a.id := pilot.(active := true, terms := pilot.terms.(activeAt := Some(c.at)))];
      return Ok(pilots[a.id]);
    }

    method AddWork(c: Call, ghost was: Stamp) returns (r: Result<Work, DeliveryError>)
      requires c.action.Working? && ValidCall(c) && ValidDesk(View(was))
      modifies this`work
      ensures View(c.at) == Step(old(View(was)), c)
      ensures work == old(work) + if r.Ok? then [r.value] else []
    {
      var a := c.action;
      if a.id !in pilots { return Err(PilotNotFound); }
      if !pilots[a.id].active { return Err(NotActive); }
      if a.resource.None? { return Err(CaseNotFound); }
      if !SameResource(pilots[a.id].scope, a.resource.value) { return Err(OutsideScope); }
      if !(1 <= a.minutes <= 1440) { return Err(BadMinutes); }
      if a.note.None? { return Err(BadNote); }
      r := Ok(Work(a.id, a.resource.value, a.note.value, Entry(c.at, a.minutes)));
      work := work + [r.value];
    }

    method RecordDrill(c: Call, ghost was: Stamp) returns (r: Result<bool, DeliveryError>)
      requires c.action.Drilling? && ValidCall(c) && ValidDesk(View(was))
      modifies this`drills, this`followups
      ensures View(c.at) == Step(old(View(was)), c)
      ensures r.Ok? ==> DrillKey(c.action.id, c.action.sha) in drills
    {
      var a := c.action;
      if a.id !in pilots { return Err(PilotNotFound); }
      var pilot := pilots[a.id];
      if !pilot.active || pilot.terms.activeAt.None? { return Err(NotActive); }
      if !SameResource(pilot.scope, a.row.resource) { return Err(OutsideScope); }
      if !NotAfter(pilot.terms.activeAt.value, a.row.checkedAt) { return Err(PredatesActivation); }
      var key := DrillKey(a.id, a.sha);
      if key !in drills { drills := drills[key := a.row]; }
      if !a.row.passed { followups := followups + {key}; }
      return Ok(true);
    }
  }

  // ---------------------------------------------------------------- what every run keeps

  ghost predicate PilotOk(d: Desk, p: Pilot) {
    && ValidTerms(p.terms) && (p.active <==> p.terms.activeAt.Some?) && p.terms.feeCents > 0
    && p.request in d.requests && d.requests[p.request].onboarded && d.requests[p.request].vmCount == 1
  }

  ghost predicate PilotsOk(d: Desk) {
    && (forall id :: id in d.pilots ==> PilotOk(d, d.pilots[id]))
    && (forall x, y :: x in d.pilots && y in d.pilots && d.pilots[x].request == d.pilots[y].request ==> x == y)
  }

  /** A pilot that is active, for this resource, since `at` or before. */
  ghost predicate ActiveSince(d: Desk, id: string, at: Stamp) {
    && id in d.pilots && d.pilots[id].active && d.pilots[id].terms.activeAt.Some?
    && ValidStamp(d.pilots[id].terms.activeAt.value) && ValidStamp(at)
    && NotAfter(d.pilots[id].terms.activeAt.value, at)
  }

  ghost predicate WorkOk(d: Desk, w: Work) {
    && ActiveSince(d, w.pilot, w.entry.at) && SameResource(d.pilots[w.pilot].scope, w.resource)
    && 1 <= w.entry.amount <= 1440
  }

  ghost predicate DrillOk(d: Desk, key: DrillKey) {
    && key in d.drills && ActiveSince(d, key.pilot, d.drills[key].checkedAt)
    && SameResource(d.pilots[key.pilot].scope, d.drills[key].resource)
    && (!d.drills[key].passed ==> key in d.followups)
  }

  ghost predicate Inv(d: Desk) {
    && ValidDesk(d) && PilotsOk(d)
    && (forall id :: id in d.pilots && d.pilots[id].active ==> ActiveSince(d, id, d.now))
    && (forall i :: 0 <= i < |d.work| ==> WorkOk(d, d.work[i]))
    && (forall key :: key in d.drills ==> DrillOk(d, key))
    && (forall key :: key in d.followups ==> key in d.drills)
  }

  /** A pilot only ever changes by its one activation. */
  ghost predicate PilotContinues(p: Pilot, q: Pilot) {
    q == p || (!p.active && q.active && q == p.(active := true, terms := p.terms.(activeAt := q.terms.activeAt)))
  }

  ghost predicate Extends(d: Desk, e: Desk) {
    && (forall id :: id in d.pilots ==> id in e.pilots && PilotContinues(d.pilots[id], e.pilots[id]))
    && d.work <= e.work && d.followups <= e.followups
    && (forall key :: key in d.drills ==> key in e.drills && e.drills[key] == d.drills[key])
  }

  lemma NotAfterIsTransitive(a: Stamp, b: Stamp, c: Stamp)
    requires ValidStamp(a) && ValidStamp(b) && ValidStamp(c) && NotAfter(a, b) && NotAfter(b, c)
    ensures NotAfter(a, c)
  {
    TextLeTransitive(StampText(a), StampText(b), StampText(c));
  }

  lemma NotAfterItself(a: Stamp)
    requires ValidStamp(a)
    ensures NotAfter(a, a)
  {
    TextLeTotal(StampText(a), StampText(a));
  }

  /** What still holds when only pilots and requests have moved on and the clock has not gone back. */
  lemma RowsStay(d: Desk, e: Desk)
    requires Inv(d) && ValidDesk(e) && PilotsOk(e) && Extends(d, e) && NotAfter(d.now, e.now)
    requires e.work == d.work && e.drills == d.drills && e.followups == d.followups
    requires forall id :: id in e.pilots && e.pilots[id].active ==>
               (id in d.pilots && d.pilots[id].active) || ActiveSince(e, id, e.now)
    ensures Inv(e)
  {
    hide NotAfter, PilotsOk;
    forall id | id in e.pilots && e.pilots[id].active ensures ActiveSince(e, id, e.now) {
      if id in d.pilots && d.pilots[id].active {
        assert ActiveSince(d, id, d.now);
        NotAfterIsTransitive(d.pilots[id].terms.activeAt.value, d.now, e.now);
      }
    }
    forall i | 0 <= i < |e.work| ensures WorkOk(e, e.work[i]) { assert WorkOk(d, d.work[i]); }
    forall key | key in e.drills ensures DrillOk(e, key) { assert DrillOk(d, key); }
  }

  /** The clock may move on. */
  ghost predicate Later(d: Desk, now: Stamp) { ValidStamp(now) && ValidStamp(d.now) && NotAfter(d.now, now) }

  lemma Requested(d: Desk, id: string, asked: PilotRequest, now: Stamp)
    requires Inv(d) && Later(d, now) && id !in d.requests
    ensures Inv(d.(requests := d.requests[id := asked], now := now))
  {
    hide NotAfter, WorkOk, DrillOk, ActiveSince;
    RowsStay(d, d.(requests := d.requests[id := asked], now := now));
  }

  lemma Onboarded(d: Desk, id: string, p: Pilot, now: Stamp)
    requires Inv(d) && Later(d, now) && id !in d.pilots && !p.active && p.terms.activeAt.None? && p.terms.feeCents > 0
    requires p.request in d.requests && !d.requests[p.request].onboarded && d.requests[p.request].vmCount == 1
    ensures var e := WithPilot(d, id, p).(now := now);
            Inv(e) && Extends(d, e)
  {
    hide NotAfter, WorkOk, DrillOk, ActiveSince;
    var e := WithPilot(d, id, p).(now := now);
    assert forall x :: x in d.pilots ==> PilotOk(d, d.pilots[x]) && d.pilots[x].request != p.request;
    RowsStay(d, e);
  }

  lemma Activated(d: Desk, id: string, now: Stamp)
    requires Inv(d) && Later(d, now) && id in d.pilots && !d.pilots[id].active
    ensures var p := d.pilots[id];
            var e := d.(pilots := d.pilots[id := p.(active := true, terms := p.terms.(activeAt := Some(now)))],
                        now := now);
            Inv(e) && Extends(d, e)
  {
    hide NotAfter, WorkOk, DrillOk, PilotsOk;
    var p := d.pilots[id];
    var e := d.(pilots := d.pilots[id := p.(active := true, terms := p.terms.(activeAt := Some(now)))], now := now);
    NotAfterItself(now);
    PilotsAfter(d, id, now);
    PilotsStay(d.(pilots := e.pilots), e);
    RowsStay(d, e);
  }

  lemma PilotsAfter(d: Desk, id: string, at: Stamp)
    requires PilotsOk(d) && id in d.pilots && ValidStamp(at)
    ensures var p := d.pilots[id];
            PilotsOk(d.(pilots := d.pilots[id := p.(active := true, terms := p.terms.(activeAt := Some(at)))]))
  {
    hide ValidStamp;
    var p := d.pilots[id];
    var e := d.(pilots := d.pilots[id := p.(active := true, terms := p.terms.(activeAt := Some(at)))]);
    assert PilotOk(d, p);
    forall x | x in e.pilots ensures PilotOk(e, e.pilots[x]) { assert x != id ==> PilotOk(d, d.pilots[x]); }
  }

  lemma Waited(d: Desk, now: Stamp)
    requires Inv(d) && Later(d, now)
    ensures Inv(d.(now := now)) && Extends(d, d.(now := now))
  {
    hide NotAfter, WorkOk, DrillOk, ActiveSince;
    RowsStay(d, d.(now := now));
  }

  lemma Worked(d: Desk, w: Work)
    requires Inv(d) && WorkOk(d, w)
    ensures Inv(d.(work := d.work + [w]))
  {
    hide NotAfter, PilotsOk, DrillOk;
    var e := d.(work := d.work + [w]);
    forall i | 0 <= i < |e.work| ensures WorkOk(e, e.work[i]) { assert i < |d.work| ==> WorkOk(d, d.work[i]); }
    forall key | key in e.drills ensures DrillOk(e, key) { DrillStays(d, e, key); }
    assert PilotsOk(e) by { PilotsStay(d, e); }
  }

  lemma Drilled(d: Desk, key: DrillKey, row: DrillRow)
    requires Inv(d) && ActiveSince(d, key.pilot, row.checkedAt) && SameResource(d.pilots[key.pilot].scope, row.resource)
    ensures Inv(AddDrill(d, key, row))
  {
    hide NotAfter, PilotsOk;
    var e := AddDrill(d, key, row);
    forall i | 0 <= i < |e.work| ensures WorkOk(e, e.work[i]) { assert WorkOk(d, d.work[i]); }
    forall k | k in e.drills ensures DrillOk(e, k) { assert k in d.drills ==> DrillOk(d, k); }
    assert PilotsOk(e) by { PilotsStay(d, e); }
  }

  lemma PilotsStay(d: Desk, e: Desk)
    requires PilotsOk(d) && e.pilots == d.pilots && e.requests == d.requests
    ensures PilotsOk(e)
  {
    forall id | id in e.pilots ensures PilotOk(e, e.pilots[id]) { assert PilotOk(d, d.pilots[id]); }
  }

  lemma DrillStays(d: Desk, e: Desk, key: DrillKey)
    requires DrillOk(d, key) && e.pilots == d.pilots && e.drills == d.drills && e.followups == d.followups
    ensures DrillOk(e, key)
  {}

  lemma OnboardKeeps(d: Desk, id: string, o: Offer, now: Stamp)
    requires Inv(d) && Later(d, now)
    ensures var e := AfterOnboard(d, id, o).(now := now);
            Inv(e) && Extends(d, e)
  {
    hide Inv, CentsOf, Extends, NotAfter;
    Waited(d, now);
    var p := Onboard(d, id, o);
    if p.Ok? { Onboarded(d, id, p.value, now); }
  }

  lemma ActivateKeeps(d: Desk, id: string, snapshot: Scope, observed: bool, now: Stamp)
    requires Inv(d) && Later(d, now)
    ensures var e := AfterActivate(d, id, snapshot, observed, now).(now := now);
            Inv(e) && Extends(d, e)
  {
    hide Inv, Extends, NotAfter;
    Waited(d, now);
    if Activate(d, id, snapshot, observed, now).Ok? { Activated(d, id, now); }
  }

  lemma WorkKeeps(d: Desk, id: string, resource: Option<Scope>, minutes: int, note: Option<string>, now: Stamp)
    requires Inv(d) && Later(d, now)
    ensures var e := AfterWork(d, id, resource, minutes, note, now).(now := now);
            Inv(e) && Extends(d, e)
  {
    hide NotAfter, PilotsOk, DrillOk;
    Waited(d, now);
    var t := d.(now := now);
    var w := RecordWork(d, id, resource, minutes, note, now);
    if w.Ok? {
      assert ActiveSince(t, id, t.now);
      Worked(t, w.value);
    }
  }

  lemma DrillKeeps(d: Desk, id: string, sha: string, row: DrillRow, now: Stamp)
    requires Inv(d) && Later(d, now) && ValidStamp(row.checkedAt) && (id in d.pilots ==> ValidTerms(d.pilots[id].terms))
    ensures var e := AfterDrill(d, id, sha, row).(now := now);
            Inv(e) && Extends(d, e)
  {
    hide NotAfter, Inv;
    Waited(d, now);
    var t := d.(now := now);
    if CheckDrill(d, id, row).Ok? { Drilled(t, DrillKey(id, sha), row); }
  }

  lemma StepKeeps(d: Desk, c: Call)
    requires Inv(d) && ValidCall(c) && Later(d, c.at)
    ensures Inv(Step(d, c)) && Extends(d, Step(d, c))
  {
    hide AfterOnboard, AfterActivate, AfterWork, AfterDrill, PilotsOk, WorkOk, DrillOk, ActiveSince, NotAfter;
    match c.action
    case Requesting(id, ask) =>
      Waited(d, c.at);
      var r := TakeRequest(d, id, ask);
      if r.Ok? { Requested(d, id, r.value, c.at); }
    case Onboarding(id, offer) => OnboardKeeps(d, id, offer, c.at);
    case Activating(id, snapshot, observed) => ActivateKeeps(d, id, snapshot, observed, c.at);
    case Working(id, resource, minutes, note) => WorkKeeps(d, id, resource, minutes, note, c.at);
    case Drilling(id, sha, row) => DrillKeeps(d, id, sha, row, c.at);
  }

  /** Main invariant: in every run whose clock does not go back, a request has at most one pilot, work
      and drills belong to a pilot already active then and to its resource, a failed drill has its
      follow-up, and nothing recorded is changed or lost. */
  lemma {:induction false} RunKeeps(d: Desk, calls: seq<Call>)
    requires Inv(d) && ValidCalls(calls) && Chronological(d, calls)
    ensures Inv(Run(d, calls)) && Extends(d, Run(d, calls))
    decreases |calls|
  {
    hide Inv, Step, NotAfter, PilotContinues, Extends;
    if calls == [] {
      ExtendsItself(d);
    } else {
      var front, c := calls[..|calls| - 1], calls[|calls| - 1];
      RunKeeps(d, front);
      assert ValidDesk(d) by { InvIsValid(d); }
      StepKeeps(Run(d, front), c);
      ExtendsIsTransitive(d, Run(d, front), Run(d, calls));
    }
  }

  /** It holds to begin with. */
  lemma NewDeskIsSound(now: Stamp)
    requires ValidStamp(now)
    ensures Inv(NewDesk(now))
  {}

  lemma InvIsValid(d: Desk)
    requires Inv(d)
    ensures ValidDesk(d)
  {}

  lemma ExtendsItself(d: Desk)
    ensures Extends(d, d)
  {}

  lemma ExtendsIsTransitive(d: Desk, e: Desk, f: Desk)
    requires Extends(d, e) && Extends(e, f)
    ensures Extends(d, f)
  {}

  // ---------------------------------------------------------------- consequences for reports

  function WorkOf(work: seq<Work>, id: string): seq<Entry> {
    if work == [] then []
    else WorkOf(work[..|work| - 1], id) + if work[|work| - 1].pilot == id then [work[|work| - 1].entry] else []
  }

  ghost predicate WorkedOn(work: seq<Work>, id: string, e: Entry) {
    exists i :: 0 <= i < |work| && work[i].pilot == id && work[i].entry == e
  }

  lemma {:induction false} WorkOfIsListed(work: seq<Work>, id: string)
    ensures forall e :: e in WorkOf(work, id) <==> WorkedOn(work, id, e)
  {
    if work != [] {
      var front := work[..|work| - 1];
      WorkOfIsListed(front, id);
      assert work == front + [work[|work| - 1]];
      forall e ensures e in WorkOf(work, id) <==> WorkedOn(work, id, e) {
        if i :| 0 <= i < |front| && front[i].pilot == id && front[i].entry == e { assert work[i] == front[i]; }
        if i :| 0 <= i < |work| && work[i].pilot == id && work[i].entry == e {
          if i < |front| { assert front[i] == work[i]; }
        }
      }
    }
  }

  lemma {:induction false} NothingBefore(entries: seq<Entry>, month: Month)
    requires ValidEntries(entries) && ValidMonth(month)
    requires forall i :: 0 <= i < |entries| ==> Index(month) < Index(entries[i].at.month)
    ensures SumIn(entries, month) == 0
  {
    hide InWindow, StampText;
    if entries != [] {
      NothingBefore(entries[..|entries| - 1], month);
      WindowExactly(month, entries[|entries| - 1].at);
    }
  }

  /** In every run, a month that charges no fee for a pilot carries no labor for it either. */
  lemma NoLaborWithoutFee(d: Desk, calls: seq<Call>, id: string, month: Month)
    requires Inv(d) && ValidCalls(calls) && Chronological(d, calls) && ValidMonth(month) && id in Run(d, calls).pilots
    ensures var e := Run(d, calls);
            ValidEntries(WorkOf(e.work, id))
            && (ReportFor(e.pilots[id].terms, WorkOf(e.work, id), month).fee == 0 ==>
                  ReportFor(e.pilots[id].terms, WorkOf(e.work, id), month).labor == 0)
  {
    RunKeeps(d, calls);
    var e := Run(d, calls);
    var entries, terms := WorkOf(e.work, id), e.pilots[id].terms;
    WorkOfIsListed(e.work, id);
    hide Run, Chronological, NotAfter, Labor, ActiveBy, SumIn, StampText;
    forall i | 0 <= i < |entries|
      ensures ValidStamp(entries[i].at) && terms.activeAt.Some?
              && Index(terms.activeAt.value.month) <= Index(entries[i].at.month)
    {
      assert entries[i] in entries;
      var k :| 0 <= k < |e.work| && e.work[k].pilot == id && e.work[k].entry == entries[i];
      assert WorkOk(e, e.work[k]);
      NotAfterMonths(terms.activeAt.value, entries[i].at);
    }
    ActiveFromItsMonth(terms, month);
    assert PilotOk(e, e.pilots[id]);
    if !ActiveBy(terms, month) {
      NothingBefore(entries, month);
      NoMinutesNoLabor(terms.hourlyCents);
    }
  }

  lemma NoMinutesNoLabor(hourly: nat)
    ensures Labor(0, hourly) == 0
  {}

  /** Recording a result again changes nothing. */
  lemma DrillIsIdempotent(d: Desk, c: Call)
    requires Inv(d) && ValidCall(c) && c.action.Drilling?
    ensures Step(Step(d, c), c) == Step(d, c)
  {
    hide NotAfter, Inv;
  }
}
