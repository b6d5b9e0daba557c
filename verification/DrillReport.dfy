/** The report of a replayed recovery drill in plain terms: which findings it holds, and what its numbers
    say about the events. */
module DrillReport {
  import opened Common
  import opened DependencyOrder
  import opened RecoveryDrill

  /** Event `i` is the last one of its component. */
  ghost predicate LastOf(events: seq<Event>, i: int, id: string) {
    0 <= i < |events| && events[i].componentId == id && forall j :: i < j < |events| ==> events[j].componentId != id
  }

  lemma {:induction false} EventOfIsLast(events: seq<Event>, id: string)
    ensures EventOf(events, id).None? ==> forall i :: 0 <= i < |events| ==> events[i].componentId != id
    ensures EventOf(events, id).Some? ==> exists i :: LastOf(events, i, id) && events[i] == EventOf(events, id).value
  {
    if events != [] {
      var front, n := events[..|events| - 1], |events| - 1;
      EventOfIsLast(front, id);
      assert forall i :: 0 <= i < n ==> front[i] == events[i];
      if events[n].componentId == id {
        assert LastOf(events, n, id);
      } else if EventOf(front, id).Some? {
        var i :| LastOf(front, i, id) && front[i] == EventOf(front, id).value;
        assert LastOf(events, i, id);
      }
    }
  }

  /** The component's last event started before the dependency's last event was completed. */
  ghost predicate Early(events: seq<Event>, id: string, dependency: string) {
    exists i, j :: LastOf(events, i, id) && LastOf(events, j, dependency) && events[i].started < events[j].completed
  }

  /** The component's last event does not show the validation as passed. */
  ghost predicate Unproven(events: seq<Event>, id: string, validation: string) {
    exists i :: LastOf(events, i, id) && !(validation in events[i].results && events[i].results[validation])
  }

  lemma OneLast(events: seq<Event>, i: int, j: int, id: string)
    requires LastOf(events, i, id) && LastOf(events, j, id)
    ensures i == j
  {}

  lemma EarlyExactly(events: seq<Event>, id: string, dependency: string)
    ensures EventOf(events, id).Some? && TooEarly(EventOf(events, id).value, events, dependency)
       <==> Early(events, id, dependency)
  {
    EventOfIsLast(events, id);
    EventOfIsLast(events, dependency);
    hide EventOf;
    if i, j :| LastOf(events, i, id) && LastOf(events, j, dependency) && events[i].started < events[j].completed {
      forall n | LastOf(events, n, id) ensures n == i { OneLast(events, n, i, id); }
      forall n | LastOf(events, n, dependency) ensures n == j { OneLast(events, n, j, dependency); }
    }
  }

  lemma UnprovenExactly(events: seq<Event>, id: string, validation: string)
    ensures EventOf(events, id).Some? && !ResultOf(EventOf(events, id).value, validation)
       <==> Unproven(events, id, validation)
  {
    EventOfIsLast(events, id);
    hide EventOf;
    if i :| LastOf(events, i, id) && !(validation in events[i].results && events[i].results[validation]) {
      forall n | LastOf(events, n, id) ensures n == i { OneLast(events, n, i, id); }
    }
  }

  /** What a component of the contract is found to lack. */
  ghost predicate Lacks(c: Component, events: seq<Event>, f: Finding) {
    match f
    case Missing(s, id) => s == Critical && id == c.id && forall i :: 0 <= i < |events| ==> events[i].componentId != id
    case OutOfOrder(s, id, d) => s == High && id == c.id && d in c.dependsOn && Early(events, id, d)
    case ValidationFailed(s, id, v) =>
      && s == (if v == "synthetic_transaction" then Critical else High)
      && id == c.id && v in c.validations && Unproven(events, id, v)
    case _ => false
  }

  lemma ComponentLacks(c: Component, events: seq<Event>, f: Finding)
    ensures f in ComponentFindings(c, events) <==> Lacks(c, events, f)
  {
    hide EventOf, OrderFindings, ValidationFindings, TooEarly, ResultOf, Early, Unproven;
    EventOfIsLast(events, c.id);
    var e := EventOf(events, c.id);
    if f.OutOfOrder? { EarlyExactly(events, c.id, f.dependency); }
    if f.ValidationFailed? { UnprovenExactly(events, c.id, f.validation); }
    if e.Some? {
      OrderFindingsExactly(c.id, e.value, events, c.dependsOn);
      ValidationFindingsExactly(c.id, e.value, c.validations);
    }
  }

  lemma {:induction false} AllLack(cs: seq<Component>, events: seq<Event>, f: Finding)
    ensures f in AllFindings(cs, events) <==> exists c :: c in cs && Lacks(c, events, f)
  {
    hide ComponentFindings, Lacks;
    if cs != [] {
      var front, last := cs[..|cs| - 1], cs[|cs| - 1];
      AllLack(front, events, f);
      ComponentLacks(last, events, f);
      assert cs == front + [last];
    }
  }

  /** The report holds a finding exactly when some component of the contract lacks it, or when the recovery
      time or point is beyond its objective; each with its own severity. */
  lemma FindingsExactly(contract: Contract, events: seq<Event>, f: Finding)
    requires Judge(contract, events).Ok?
    ensures var r := Judge(contract, events).value;
            f in r.findings <==>
              || (exists c :: c in contract.components && Lacks(c, events, f))
              || (f == RtoExceeded(Critical) && r.rto > contract.rtoMinutes)
              || (f == RpoExceeded(Critical) && r.rpo > contract.rpoMinutes)
  {
    hide AllFindings, Lacks, Passed, Required, Latest, Oldest, OrderOf;
    AllLack(contract.components, events, f);
  }

  /** Findings come component by component, dependencies before validations, each as declared. */
  lemma {:induction false} FindingsInOrder(a: seq<Component>, b: seq<Component>, events: seq<Event>)
    ensures AllFindings([], events) == [] && forall c :: AllFindings([c], events) == ComponentFindings(c, events)
    ensures AllFindings(a + b, events) == AllFindings(a, events) + AllFindings(b, events)
    decreases |b|
  {
    hide ComponentFindings;
    assert forall c: Component :: [c][..0] == [];
    if b == [] {
      assert a + b == a;
    } else {
      FindingsInOrder(a, b[..|b| - 1], events);
      assert (a + b)[..|a + b| - 1] == a + b[..|b| - 1];
    }
  }

  lemma {:induction false} ChecksInOrder(c: Component, e: Event, events: seq<Event>, a: seq<string>, b: seq<string>)
    ensures OrderFindings(c.id, e, events, a + b)
         == OrderFindings(c.id, e, events, a) + OrderFindings(c.id, e, events, b)
    ensures ValidationFindings(c.id, e, a + b) == ValidationFindings(c.id, e, a) + ValidationFindings(c.id, e, b)
    decreases |b|
  {
    hide TooEarly, ResultOf;
    if b == [] {
      assert a + b == a;
    } else {
      ChecksInOrder(c, e, events, a, b[..|b| - 1]);
      assert (a + b)[..|a + b| - 1] == a + b[..|b| - 1];
    }
  }

  lemma DependenciesFirst(c: Component, events: seq<Event>, i: nat, j: nat)
    requires i < j < |ComponentFindings(c, events)|
    ensures !(ComponentFindings(c, events)[i].ValidationFailed? && ComponentFindings(c, events)[j].OutOfOrder?)
  {
    hide OrderFindings, ValidationFindings, EventOf, TooEarly, ResultOf;
    var e := EventOf(events, c.id);
    if e.Some? {
      OrderFindingsExactly(c.id, e.value, events, c.dependsOn);
      ValidationFindingsExactly(c.id, e.value, c.validations);
      var o, v := OrderFindings(c.id, e.value, events, c.dependsOn), ValidationFindings(c.id, e.value, c.validations);
      assert i < |o| ==> (o + v)[i] in o;
      assert j >= |o| ==> (o + v)[j] in v;
    }
  }

  // ---------------------------------------------------------------- its numbers

  /** `n` is the greatest of the values, or zero when there are none. */
  ghost predicate IsGreatest(n: int, events: seq<Event>, f: Event -> int) {
    if events == [] then n == 0
    else (exists e :: e in events && f(e) == n) && forall e :: e in events ==> f(e) <= n
  }

  lemma {:induction false} GreatestIs(xs: seq<int>)
    requires xs != []
    ensures Greatest(xs) in xs && forall i :: 0 <= i < |xs| ==> xs[i] <= Greatest(xs)
  {
    GreatestWithin(xs, Greatest(xs));
    if |xs| > 1 {
      GreatestIs(xs[..|xs| - 1]);
      assert xs == xs[..|xs| - 1] + [xs[|xs| - 1]];
    }
  }

  lemma TimesAreGreatest(events: seq<Event>)
    ensures IsGreatest(Latest(events), events, (e: Event) => e.completed)
    ensures IsGreatest(Oldest(events), events, (e: Event) => e.recoveryPointAge)
  {
    var times := seq(|events|, i requires 0 <= i < |events| => events[i].completed);
    var ages := seq(|events|, i requires 0 <= i < |events| => events[i].recoveryPointAge);
    assert Latest(events) == Greatest(times) && Oldest(events) == Greatest(ages);
    if events != [] {
      GreatestIs(times);
      GreatestIs(ages);
      hide Greatest;
      var i :| 0 <= i < |times| && times[i] == Greatest(times);
      var j :| 0 <= j < |ages| && ages[j] == Greatest(ages);
      assert events[i] in events && events[j] in events;
      forall e | e in events ensures e.completed <= Greatest(times) && e.recoveryPointAge <= Greatest(ages) {
        var k :| 0 <= k < |events| && events[k] == e;
        assert times[k] == e.completed && ages[k] == e.recoveryPointAge;
      }
    }
  }

  /** The drill's costs added up, whatever way the events are split. */
  lemma {:induction false} CostsAddUp(a: seq<Event>, b: seq<Event>)
    ensures TotalCost([]) == 0.0 && (forall e :: TotalCost([e]) == e.cost)
    ensures TotalCost(a + b) == TotalCost(a) + TotalCost(b)
  {
    assert forall e: Event :: [e][..0] == [];
    if b == [] {
      assert a + b == a;
    } else {
      CostsAddUp(a, b[..|b| - 1]);
      assert (a + b)[..|a + b| - 1] == a + b[..|b| - 1];
    }
  }

  /** Recovery time and point are the worst of the events; the cost is their sum and the exposure is the
      revenue of the recovery time, a month being 30 days of 24 hours of 60 minutes; both to the cent. */
  lemma NumbersExactly(contract: Contract, events: seq<Event>)
    requires Judge(contract, events).Ok?
    ensures var r := Judge(contract, events).value;
            && IsGreatest(r.rto, events, (e: Event) => e.completed)
            && IsGreatest(r.rpo, events, (e: Event) => e.recoveryPointAge)
            && -0.5 <= r.drillCost as real - 100.0 * TotalCost(events) <= 0.5
            && -0.5 <= r.exposure as real - 100.0 * (contract.monthlyRevenue * r.rto as real / 43200.0) <= 0.5
            && OrderOf(true, Items(contract.components)) == Ok(r.order)
  {
    hide AllFindings, Passed, Required, Latest, Oldest, OrderOf, TotalCost, IsGreatest;
    TimesAreGreatest(events);
    ExposureIs(contract, Latest(events));
  }

  lemma ExposureIs(contract: Contract, rto: int)
    ensures Exposure(contract, rto) == contract.monthlyRevenue * rto as real / 43200.0
  {}

  /** Passed validations, counted by place. */
  lemma {:induction false} PassedInIs(e: Event, validations: seq<string>)
    ensures PassedIn(e, validations)
         == |set i | 0 <= i < |validations| && validations[i] in e.results && e.results[validations[i]]|
  {
    var good := set i | 0 <= i < |validations| && validations[i] in e.results && e.results[validations[i]];
    if validations != [] {
      var n := |validations| - 1;
      var front := validations[..n];
      PassedInIs(e, front);
      var before := set i | 0 <= i < |front| && front[i] in e.results && e.results[front[i]];
      assert good == if ResultOf(e, validations[n]) then before + {n} else before;
    }
  }

  /** Validations passed and required, added up over the components. */
  lemma {:induction false} CountsAddUp(a: seq<Component>, b: seq<Component>, events: seq<Event>)
    ensures Required([]) == 0 && (forall c :: Required([c]) == |c.validations|)
    ensures Passed([], events) == 0
    ensures forall c :: Passed([c], events) == if EventOf(events, c.id).None? then 0
                                               else PassedIn(EventOf(events, c.id).value, c.validations)
    ensures Required(a + b) == Required(a) + Required(b)
    ensures Passed(a + b, events) == Passed(a, events) + Passed(b, events)
    decreases |b|
  {
    hide PassedIn, EventOf;
    assert forall c: Component :: [c][..0] == [];
    if b == [] {
      assert a + b == a;
    } else {
      CountsAddUp(a, b[..|b| - 1], events);
      assert (a + b)[..|a + b| - 1] == a + b[..|b| - 1];
    }
  }
}
