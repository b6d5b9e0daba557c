/** Judging a replayed recovery drill against its contract, and what the recovery order is for. */
module RecoveryDrill {
  import opened Common
  import opened DependencyOrder
  import opened DependencySearch
  import opened Rounding

  datatype Component = Component(id: string, dependsOn: seq<string>, validations: seq<string>)

  datatype Contract = Contract(components: seq<Component>, rtoMinutes: int, rpoMinutes: int, monthlyRevenue: real)

  datatype Event = Event(componentId: string, started: int, completed: int, recoveryPointAge: int,
                         results: map<string, bool>, cost: real)

  datatype Severity = Critical | High

  datatype Finding =
    | Missing(severity: Severity, id: string)
    | OutOfOrder(severity: Severity, id: string, dependency: string)
    | ValidationFailed(severity: Severity, id: string, validation: string)
    | RtoExceeded(severity: Severity)
    | RpoExceeded(severity: Severity)

  /** A failed synthetic transaction is graver than another failed validation. */
  function Grade(validation: string): Severity { if validation == "synthetic_transaction" then Critical else High }

  /** Costs in cents. */
  datatype Report = Report(order: seq<string>, findings: seq<Finding>, rto: int, rpo: int, drillCost: int,
                           exposure: int, passed: int, required: int)

  function Items(cs: seq<Component>): (r: seq<Item>)
    ensures |r| == |cs| && forall i :: 0 <= i < |cs| ==> r[i] == Item(cs[i].id, cs[i].dependsOn)
  {
    seq(|cs|, i requires 0 <= i < |cs| => Item(cs[i].id, cs[i].dependsOn))
  }

  /** `{event.component_id: event}`: the last event of a component counts. */
  function EventOf(events: seq<Event>, id: string): Option<Event> {
    if events == [] then None
    else if events[|events| - 1].componentId == id then Some(events[|events| - 1])
    else EventOf(events[..|events| - 1], id)
  }

  predicate TooEarly(e: Event, events: seq<Event>, dependency: string) {
    EventOf(events, dependency).Some? && e.started < EventOf(events, dependency).value.completed
  }

  predicate ResultOf(e: Event, validation: string) { validation in e.results && e.results[validation] }

  function OrderFindings(id: string, e: Event, events: seq<Event>, deps: seq<string>): seq<Finding> {
    if deps == [] then []
    else
      var last := deps[|deps| - 1];
      OrderFindings(id, e, events, deps[..|deps| - 1])
      + if TooEarly(e, events, last) then [OutOfOrder(High, id, last)] else []
  }

  function ValidationFindings(id: string, e: Event, validations: seq<string>): seq<Finding> {
    if validations == [] then []
    else
      var last := validations[|validations| - 1];
      ValidationFindings(id, e, validations[..|validations| - 1])
      + if ResultOf(e, last) then [] else [ValidationFailed(Grade(last), id, last)]
  }

  function ComponentFindings(c: Component, events: seq<Event>): seq<Finding> {
    var e := EventOf(events, c.id);
    if e.None? then [Missing(Critical, c.id)]
    else OrderFindings(c.id, e.value, events, c.dependsOn) + ValidationFindings(c.id, e.value, c.validations)
  }

  function AllFindings(cs: seq<Component>, events: seq<Event>): seq<Finding> {
    if cs == [] then [] else AllFindings(cs[..|cs| - 1], events) + ComponentFindings(cs[|cs| - 1], events)
  }

  /** `max(..., default=0)`. */
  function Greatest(xs: seq<int>): int {
    if xs == [] then 0
    else if |xs| == 1 then xs[0]
    else
      var rest := Greatest(xs[..|xs| - 1]);
      if xs[|xs| - 1] > rest then xs[|xs| - 1] else rest
  }

  function Latest(events: seq<Event>): int {
    Greatest(seq(|events|, i requires 0 <= i < |events| => events[i].completed))
  }

  function Oldest(events: seq<Event>): int {
    Greatest(seq(|events|, i requires 0 <= i < |events| => events[i].recoveryPointAge))
  }

  function PassedIn(e: Event, validations: seq<string>): nat {
    if validations == [] then 0
    else PassedIn(e, validations[..|validations| - 1]) + if ResultOf(e, validations[|validations| - 1]) then 1 else 0
  }

  function PassedOf(c: Component, events: seq<Event>): nat {
    var e := EventOf(events, c.id);
    if e.None? then 0 else PassedIn(e.value, c.validations)
  }

  function Passed(cs: seq<Component>, events: seq<Event>): nat {
    if cs == [] then 0 else Passed(cs[..|cs| - 1], events) + PassedOf(cs[|cs| - 1], events)
  }

  function Required(cs: seq<Component>): nat {
    if cs == [] then 0 else Required(cs[..|cs| - 1]) + |cs[|cs| - 1].validations|
  }

  function TotalCost(events: seq<Event>): real {
    if events == [] then 0.0 else TotalCost(events[..|events| - 1]) + events[|events| - 1].cost
  }

  /** Revenue of the minutes until the last recovery, at the month's hourly rate. */
  function Exposure(contract: Contract, rto: int): real { contract.monthlyRevenue / 720.0 * rto as real / 60.0 }

  function Judge(contract: Contract, events: seq<Event>): Result<Report, OrderError> {
    match OrderOf(true, Items(contract.components))
    case Err(e) => Err(e)
    case Ok(order) =>
      var rto, rpo := Latest(events), Oldest(events);
      Ok(Report(order, AllFindings(contract.components, events)
                       + (if rto > contract.rtoMinutes then [RtoExceeded(Critical)] else [])
                       + (if rpo > contract.rpoMinutes then [RpoExceeded(Critical)] else []),
                rto, rpo, Cents(TotalCost(events)), Cents(Exposure(contract, rto)),
                Passed(contract.components, events), Required(contract.components)))
  }

  // ---------------------------------------------------------------- as the program runs it

  method FindEvent(events: seq<Event>, id: string) returns (e: Option<Event>)
    ensures e == EventOf(events, id)
  {
    e := None;
    for i := 0 to |events|
      invariant e == EventOf(events[..i], id)
    {
      assert events[..i + 1][..i] == events[..i];
      if events[i].componentId == id { e := Some(events[i]); }
    }
    assert events[..|events|] == events;
  }

  method CheckComponent(c: Component, events: seq<Event>) returns (findings: seq<Finding>)
    ensures findings == ComponentFindings(c, events)
  {
    var found := FindEvent(events, c.id);
    if found.None? { return [Missing(Critical, c.id)]; }
    var event := found.value;
    findings := [];
    for i := 0 to |c.dependsOn|
      invariant findings == OrderFindings(c.id, event, events, c.dependsOn[..i])
    {
      assert c.dependsOn[..i + 1][..i] == c.dependsOn[..i];
      var dependency := FindEvent(events, c.dependsOn[i]);
      if dependency.Some? && event.started < dependency.value.completed {
        findings := findings + [OutOfOrder(High, c.id, c.dependsOn[i])];
      }
    }
    assert c.dependsOn[..|c.dependsOn|] == c.dependsOn;
    ghost var ordered := findings;
    for i := 0 to |c.validations|
      invariant findings == ordered + ValidationFindings(c.id, event, c.validations[..i])
    {
      assert c.validations[..i + 1][..i] == c.validations[..i];
      var v := c.validations[i];
      if !ResultOf(event, v) { findings := findings + [ValidationFailed(Grade(v), c.id, v)]; }
    }
    assert c.validations[..|c.validations|] == c.validations;
  }

  /** `evaluate_drill`. */
  method EvaluateDrill(contract: Contract, events: seq<Event>) returns (r: Result<Report, OrderError>)
    ensures r == Judge(contract, events)
  {
    hide OrderOf, ComponentFindings;
    var cs := contract.components;
    var order := Order(true, Items(cs));
    if order.Err? { return Err(order.error); }
    var findings: seq<Finding> := [];
    for i := 0 to |cs|
      invariant findings == AllFindings(cs[..i], events)
    {
      assert cs[..i + 1][..i] == cs[..i];
      var more := CheckComponent(cs[i], events);
      findings := findings + more;
    }
    assert cs[..|cs|] == cs;
    var rto, rpo := Latest(events), Oldest(events);
    assert findings == findings + [] && forall more: seq<Finding> :: findings + more + [] == findings + more;
    if rto > contract.rtoMinutes { findings := findings + [RtoExceeded(Critical)]; }
    if rpo > contract.rpoMinutes { findings := findings + [RpoExceeded(Critical)]; }
    var cost := 0.0;
    for i := 0 to |events|
      invariant cost == TotalCost(events[..i])
    {
      assert events[..i + 1][..i] == events[..i];
      cost := cost + events[i].cost;
    }
    assert events[..|events|] == events;
    return Ok(Report(order.value, findings, rto, rpo, Cents(cost), Cents(Exposure(contract, rto)),
                     Passed(cs, events), Required(cs)));
  }

  // ---------------------------------------------------------------- what the findings say

  lemma {:induction false} OrderFindingsExactly(id: string, e: Event, events: seq<Event>, deps: seq<string>)
    ensures forall f :: f in OrderFindings(id, e, events, deps) <==>
              && f.OutOfOrder? && f.severity == High && f.id == id
              && f.dependency in deps && TooEarly(e, events, f.dependency)
  {
    if deps != [] {
      var front, last := deps[..|deps| - 1], deps[|deps| - 1];
      OrderFindingsExactly(id, e, events, front);
      hide TooEarly;
      assert deps == front + [last];
      forall f
        ensures f in OrderFindings(id, e, events, deps) <==>
                  && f.OutOfOrder? && f.severity == High && f.id == id
                  && f.dependency in deps && TooEarly(e, events, f.dependency)
      {
        assert f in OrderFindings(id, e, events, deps) <==>
            f in OrderFindings(id, e, events, front) || (TooEarly(e, events, last) && f == OutOfOrder(High, id, last));
      }
    }
  }

  lemma {:induction false} ValidationFindingsExactly(id: string, e: Event, validations: seq<string>)
    ensures forall f :: f in ValidationFindings(id, e, validations) <==>
              && f.ValidationFailed? && f.severity == Grade(f.validation) && f.id == id
              && f.validation in validations && !ResultOf(e, f.validation)
    ensures PassedIn(e, validations) + |ValidationFindings(id, e, validations)| == |validations|
  {
    if validations != [] {
      ValidationFindingsExactly(id, e, validations[..|validations| - 1]);
      assert validations == validations[..|validations| - 1] + [validations[|validations| - 1]];
    }
  }

  /** What a component's part of a drill has to show. */
  ghost predicate Recovered(c: Component, events: seq<Event>) {
    && EventOf(events, c.id).Some?
    && (forall d :: d in c.dependsOn ==> !TooEarly(EventOf(events, c.id).value, events, d))
    && (forall v :: v in c.validations ==> ResultOf(EventOf(events, c.id).value, v))
  }

  lemma ComponentExactly(c: Component, events: seq<Event>)
    ensures ComponentFindings(c, events) == [] <==> Recovered(c, events)
    ensures Recovered(c, events) ==> PassedOf(c, events) == |c.validations|
    ensures PassedOf(c, events) <= |c.validations|
    ensures forall f :: f in ComponentFindings(c, events) && f.OutOfOrder? ==>
              && f.dependency in c.dependsOn && EventOf(events, c.id).Some?
              && TooEarly(EventOf(events, c.id).value, events, f.dependency)
  {
    hide OrderFindings, ValidationFindings, PassedIn, EventOf, TooEarly, ResultOf;
    var e := EventOf(events, c.id);
    if e.Some? {
      OrderFindingsExactly(c.id, e.value, events, c.dependsOn);
      ValidationFindingsExactly(c.id, e.value, c.validations);
      var o, v := OrderFindings(c.id, e.value, events, c.dependsOn), ValidationFindings(c.id, e.value, c.validations);
      if d :| d in c.dependsOn && TooEarly(e.value, events, d) { assert OutOfOrder(High, c.id, d) in o; }
      if x :| x in c.validations && !ResultOf(e.value, x) { assert ValidationFailed(Grade(x), c.id, x) in v; }
      if o != [] { assert o[0] in o; }
      if v != [] { assert v[0] in v; }
    }
  }

  lemma {:induction false} AllExactly(cs: seq<Component>, events: seq<Event>)
    ensures AllFindings(cs, events) == [] <==> forall c :: c in cs ==> Recovered(c, events)
    ensures AllFindings(cs, events) == [] ==> Passed(cs, events) == Required(cs)
  {
    hide ComponentFindings, Recovered, PassedOf;
    if cs != [] {
      var front, last := cs[..|cs| - 1], cs[|cs| - 1];
      AllExactly(front, events);
      ComponentExactly(last, events);
      assert cs == front + [last];
    }
  }

  /** A component of the list started before that dependency of its own was done. */
  ghost predicate StartedEarly(cs: seq<Component>, events: seq<Event>, dependency: string) {
    exists c :: c in cs && dependency in c.dependsOn && EventOf(events, c.id).Some?
                && TooEarly(EventOf(events, c.id).value, events, dependency)
  }

  lemma {:induction false} OutOfOrderMeansEarly(cs: seq<Component>, events: seq<Event>)
    ensures forall f :: f in AllFindings(cs, events) && f.OutOfOrder? ==> StartedEarly(cs, events, f.dependency)
  {
    hide ComponentFindings, EventOf, TooEarly, Recovered, PassedOf;
    if cs != [] {
      var front, last := cs[..|cs| - 1], cs[|cs| - 1];
      OutOfOrderMeansEarly(front, events);
      ComponentExactly(last, events);
      assert cs == front + [last];
      forall f | f in AllFindings(cs, events) && f.OutOfOrder? ensures StartedEarly(cs, events, f.dependency) {
        if f in AllFindings(front, events) {
          var c :| c in front && f.dependency in c.dependsOn && EventOf(events, c.id).Some?
                   && TooEarly(EventOf(events, c.id).value, events, f.dependency);
          assert c in cs;
        } else {
          assert f in ComponentFindings(last, events) && last in cs;
        }
      }
    }
  }

  lemma {:induction false} GreatestWithin(xs: seq<int>, bound: int)
    ensures Greatest(xs) <= bound <==> (xs == [] ==> 0 <= bound) && forall i :: 0 <= i < |xs| ==> xs[i] <= bound
  {
    if |xs| > 1 {
      var front := xs[..|xs| - 1];
      GreatestWithin(front, bound);
      assert forall i :: 0 <= i < |front| ==> xs[i] == front[i];
    }
  }

  /** Every event completed within the recovery time and from a recent enough point; with no events the
      objectives must still allow zero. */
  ghost predicate WithinObjectives(contract: Contract, events: seq<Event>) {
    && (events == [] ==> 0 <= contract.rtoMinutes && 0 <= contract.rpoMinutes)
    && (forall e :: e in events ==> e.completed <= contract.rtoMinutes && e.recoveryPointAge <= contract.rpoMinutes)
  }

  lemma ObjectivesExactly(contract: Contract, events: seq<Event>)
    ensures WithinObjectives(contract, events) <==>
              Latest(events) <= contract.rtoMinutes && Oldest(events) <= contract.rpoMinutes
  {
    var times := seq(|events|, i requires 0 <= i < |events| => events[i].completed);
    var ages := seq(|events|, i requires 0 <= i < |events| => events[i].recoveryPointAge);
    GreatestWithin(times, contract.rtoMinutes);
    GreatestWithin(ages, contract.rpoMinutes);
    assert forall i :: 0 <= i < |events| ==> times[i] == events[i].completed && ages[i] == events[i].recoveryPointAge;
    hide Greatest;
    assert Latest(events) == Greatest(times) && Oldest(events) == Greatest(ages);
    if Latest(events) <= contract.rtoMinutes && Oldest(events) <= contract.rpoMinutes {
      forall e | e in events ensures e.completed <= contract.rtoMinutes && e.recoveryPointAge <= contract.rpoMinutes {
        var i :| 0 <= i < |events| && events[i] == e;
        assert times[i] <= contract.rtoMinutes && ages[i] <= contract.rpoMinutes;
      }
    }
    if WithinObjectives(contract, events) {
      assert forall i :: 0 <= i < |events| ==> events[i] in events;
    }
  }

  /** A drill has no findings exactly when its contract has an order, every component recovered with
      its direct dependencies done and its validations true, and both objectives were met; and then
      every required validation is counted as passed. */
  lemma CleanExactly(contract: Contract, events: seq<Event>)
    ensures (Judge(contract, events).Ok? && Judge(contract, events).value.findings == []) <==>
              && OrderOf(true, Items(contract.components)).Ok?
              && (forall c :: c in contract.components ==> Recovered(c, events))
              && WithinObjectives(contract, events)
    ensures Judge(contract, events).Ok? && Judge(contract, events).value.findings == [] ==>
              Judge(contract, events).value.passed == Judge(contract, events).value.required
  {
    hide AllFindings, OrderOf, Recovered, Passed, Required, Latest, Oldest, WithinObjectives;
    AllExactly(contract.components, events);
    ObjectivesExactly(contract, events);
  }

  /** Each event takes no negative time. */
  ghost predicate Forward(events: seq<Event>) { forall e :: e in events ==> e.started <= e.completed }

  lemma {:induction false} EventOfIsListed(events: seq<Event>, id: string)
    ensures EventOf(events, id).Some? <==> exists i :: 0 <= i < |events| && events[i].componentId == id
    ensures EventOf(events, id).Some? ==>
              EventOf(events, id).value in events && EventOf(events, id).value.componentId == id
  {
    if events != [] {
      EventOfIsListed(events[..|events| - 1], id);
      assert events == events[..|events| - 1] + [events[|events| - 1]];
    }
  }

  /** A clean drill respects the whole dependency relation, not only its declared pairs: whatever a
      component depends on, directly or through others, was completed before it started. */
  lemma {:induction false} CleanRespectsAllDependencies(contract: Contract, events: seq<Event>, p: seq<string>)
    requires Judge(contract, events).Ok? && Judge(contract, events).value.findings == [] && Forward(events)
    requires DependencyWalk(Items(contract.components), p) && |p| >= 2
    ensures DoneBefore(events, p[|p| - 1], p[0])
    decreases |p|
  {
    CleanExactly(contract, events);
    hide Judge, OrderOf, Recovered, Forward, WithinObjectives;
    RecoveredPair(contract.components, events, p[0], p[1]);
    if |p| > 2 {
      assert DependencyWalk(Items(contract.components), p[1..]);
      CleanRespectsAllDependencies(contract, events, p[1..]);
      assert p[1..][|p| - 2] == p[|p| - 1];
      EventOfIsListed(events, p[1]);
      ForwardAt(events, EventOf(events, p[1]).value);
    }
  }

  /** Both recovered, `on` completed no later than `id` started. */
  ghost predicate DoneBefore(events: seq<Event>, on: string, id: string) {
    && EventOf(events, on).Some? && EventOf(events, id).Some?
    && EventOf(events, on).value.completed <= EventOf(events, id).value.started
  }

  lemma ForwardAt(events: seq<Event>, e: Event)
    requires Forward(events) && e in events
    ensures e.started <= e.completed
  {}

  lemma RecoveredPair(cs: seq<Component>, events: seq<Event>, id: string, on: string)
    requires (forall c :: c in cs ==> Recovered(c, events)) && Depends(Items(cs), id, on) && on in Ids(Items(cs))
    ensures DoneBefore(events, on, id)
  {
    hide EventOf;
    var i :| 0 <= i < |Items(cs)| && Items(cs)[i].id == id && on in Items(cs)[i].dependsOn;
    assert cs[i] in cs && Recovered(cs[i], events);
    var k :| 0 <= k < |cs| && Ids(Items(cs))[k] == on;
    assert cs[k] in cs && Recovered(cs[k], events);
    assert !TooEarly(EventOf(events, id).value, events, on);
  }

  /** Components recovered one after another in an order. */
  ghost predicate OneAfterAnother(order: seq<string>, events: seq<Event>) {
    && |events| == |order|
    && (forall i :: 0 <= i < |events| ==> events[i].componentId == order[i] && events[i].started <= events[i].completed)
    && (forall i :: 0 < i < |events| ==> events[i - 1].completed <= events[i].started)
  }

  lemma {:induction false} EarlierIsDone(order: seq<string>, events: seq<Event>, j: nat, i: nat)
    requires OneAfterAnother(order, events) && j < i < |events|
    ensures events[j].completed <= events[i].started
    decreases i
  {
    if j < i - 1 {
      EarlierIsDone(order, events, j, i - 1);
      assert events[i - 1].completed <= events[i].started;
    }
  }

  lemma {:induction false} EventAt(events: seq<Event>, i: nat)
    requires i < |events| && forall x, y :: 0 <= x < y < |events| ==> events[x].componentId != events[y].componentId
    ensures EventOf(events, events[i].componentId) == Some(events[i])
  {
    if i < |events| - 1 { EventAt(events[..|events| - 1], i); }
  }

  /** What `recovery_order` is for: recovering components one after another in that order leaves
      nothing out of order. */
  lemma RecoveryOrderWorks(contract: Contract, events: seq<Event>)
    requires Judge(contract, events).Ok? && OneAfterAnother(Judge(contract, events).value.order, events)
    ensures forall f :: f in Judge(contract, events).value.findings ==> !f.OutOfOrder?
  {
    hide AllFindings, Latest, Oldest, Passed, Required, EventOf, TooEarly, OneAfterAnother, OrderOf, Items;
    OutOfOrderMeansEarly(contract.components, events);
    forall c, d | c in contract.components && d in c.dependsOn && EventOf(events, c.id).Some?
      ensures !TooEarly(EventOf(events, c.id).value, events, d)
    {
      NotTooEarly(contract.components, events, c, d);
    }
  }

  lemma NotTooEarly(cs: seq<Component>, events: seq<Event>, c: Component, d: string)
    requires OrderOf(true, Items(cs)).Ok? && OneAfterAnother(OrderOf(true, Items(cs)).value, events)
    requires c in cs && d in c.dependsOn && EventOf(events, c.id).Some?
    ensures !TooEarly(EventOf(events, c.id).value, events, d)
  {
    hide EventOf, OrderOf, Distinct, KnownDependencies, Circular;
    var order := OrderOf(true, Items(cs)).value;
    OrderExactly(true, Items(cs));
    assert forall x, y :: 0 <= x < y < |events| ==> order[x] != order[y];
    EventOfIsListed(events, c.id);
    var i :| 0 <= i < |events| && events[i].componentId == c.id;
    var n :| 0 <= n < |cs| && cs[n] == c;
    assert Items(cs)[n].id == order[i] && d in Items(cs)[n].dependsOn;
    assert Depends(Items(cs), order[i], d);
    var j :| 0 <= j < i && order[j] == d;
    EventAt(events, i);
    EventAt(events, j);
    EarlierIsDone(order, events, j, i);
  }
}
