/** Metered usage with two-key deduplication: replaying deliveries never bills twice. */
module UsageMetering {
  import Sorting

  datatype UsageEvent = UsageEvent(id: string, key: string, subscription: string, period: string, quantity: real,
                                   price: real)

  /** The events billed so far, and the ids and idempotency keys that were turned away. */
  datatype Tally = Tally(accepted: seq<UsageEvent>, duplicateIds: seq<string>, duplicateKeys: seq<string>)

  datatype Scope = Scope(subscription: string, period: string)

  predicate InScope(scope: Scope, e: UsageEvent) { e.subscription == scope.subscription && e.period == scope.period }

  predicate HasId(accepted: seq<UsageEvent>, id: string) { exists f | f in accepted :: f.id == id }

  predicate HasKey(accepted: seq<UsageEvent>, key: string) { exists f | f in accepted :: f.key == key }

  /** One event of the loop. */
  function Take(scope: Scope, t: Tally, e: UsageEvent): Tally {
    if !InScope(scope, e) then t
    else if HasId(t.accepted, e.id) then t.(duplicateIds := t.duplicateIds + [e.id])
    else if HasKey(t.accepted, e.key) then t.(duplicateKeys := t.duplicateKeys + [e.key])
    else t.(accepted := t.accepted + [e])
  }

  function Metered(scope: Scope, events: seq<UsageEvent>): Tally {
    if events == [] then Tally([], [], [])
    else Take(scope, Metered(scope, events[..|events| - 1]), events[|events| - 1])
  }

  function Amount(accepted: seq<UsageEvent>): real {
    if accepted == [] then 0.0
    else Amount(accepted[..|accepted| - 1]) + accepted[|accepted| - 1].quantity * accepted[|accepted| - 1].price
  }

  /** `aggregate_usage`, with the duplicate lists as sets and the amount before rounding. */
  method AggregateUsage(events: seq<UsageEvent>, scope: Scope)
    returns (count: nat, duplicateIds: set<string>, duplicateKeys: set<string>, amount: real)
    ensures count == |Metered(scope, events).accepted| && amount == Amount(Metered(scope, events).accepted)
    ensures duplicateIds == set id | id in Metered(scope, events).duplicateIds
    ensures duplicateKeys == set k | k in Metered(scope, events).duplicateKeys
  {
    var accepted: seq<UsageEvent> := [];
    var seenIds: set<string>, seenKeys: set<string> := {}, {};
    duplicateIds, duplicateKeys := {}, {};
    for i := 0 to |events|
      invariant accepted == Metered(scope, events[..i]).accepted
      invariant forall id :: id in seenIds <==> HasId(accepted, id)
      invariant forall k :: k in seenKeys <==> HasKey(accepted, k)
      invariant duplicateIds == set id | id in Metered(scope, events[..i]).duplicateIds
      invariant duplicateKeys == set k | k in Metered(scope, events[..i]).duplicateKeys
    {
      var event := events[i];
      assert events[..i + 1][..i] == events[..i];
      if event.subscription != scope.subscription || event.period != scope.period { continue; }
      if event.id in seenIds { duplicateIds := duplicateIds + {event.id}; continue; }
      if event.key in seenKeys { duplicateKeys := duplicateKeys + {event.key}; continue; }
      seenIds, seenKeys := seenIds + {event.id}, seenKeys + {event.key};
      accepted := accepted + [event];
    }
    assert events[..|events|] == events;
    count, amount := |accepted|, 0.0;
    for i := 0 to |accepted|
      invariant amount == Amount(accepted[..i])
    {
      assert accepted[..i + 1][..i] == accepted[..i];
      amount := amount + accepted[i].quantity * accepted[i].price;
    }
    assert accepted[..|accepted|] == accepted;
  }

  // ---------------------------------------------------------------- what is billed

  predicate Shares(e: UsageEvent, f: UsageEvent) { e.id == f.id || e.key == f.key }

  ghost predicate Repeats(e: UsageEvent, accepted: seq<UsageEvent>) { exists f :: f in accepted && Shares(e, f) }

  lemma TakeRefuses(scope: Scope, t: Tally, e: UsageEvent)
    ensures Take(scope, t, e).accepted
         == if InScope(scope, e) && !Repeats(e, t.accepted) then t.accepted + [e] else t.accepted
  {
    if f :| f in t.accepted && Shares(e, f) {
      assert HasId(t.accepted, e.id) || HasKey(t.accepted, e.key);
    }
  }

  /** Billed events have distinct ids and distinct keys, and are events of the scope. */
  lemma {:induction false} BilledOnce(scope: Scope, events: seq<UsageEvent>)
    ensures var a := Metered(scope, events).accepted;
            && (forall i, j :: 0 <= i < j < |a| ==> a[i].id != a[j].id && a[i].key != a[j].key)
            && (forall e :: e in a ==> e in events && InScope(scope, e))
  {
    if events != [] {
      var n := |events| - 1;
      BilledOnce(scope, events[..n]);
      TakeRefuses(scope, Metered(scope, events[..n]), events[n]);
      hide Take, InScope;
      var before, a := Metered(scope, events[..n]).accepted, Metered(scope, events).accepted;
      if a != before {
        forall i | 0 <= i < |before| ensures a[i].id != a[|before|].id && a[i].key != a[|before|].key {
          assert before[i] in before && !Shares(events[n], before[i]);
        }
      }
    }
  }

  lemma {:induction false} BilledEarlierStaysFirst(scope: Scope, events: seq<UsageEvent>, n: nat)
    requires n <= |events|
    ensures Metered(scope, events[..n]).accepted <= Metered(scope, events).accepted
    decreases |events|
  {
    if n < |events| {
      var front := events[..|events| - 1];
      BilledEarlierStaysFirst(scope, front, n);
      assert front[..n] == events[..n];
    } else {
      assert events[..n] == events;
    }
  }

  /** Every event of the scope is billed, or repeats the id or key of one billed before it arrived. */
  lemma DroppedOnlyForARepeat(scope: Scope, events: seq<UsageEvent>, i: nat)
    requires i < |events| && InScope(scope, events[i])
    ensures events[i] in Metered(scope, events).accepted || Repeats(events[i], Metered(scope, events[..i]).accepted)
    ensures Metered(scope, events[..i]).accepted <= Metered(scope, events).accepted
  {
    assert events[..i + 1][..i] == events[..i];
    TakeRefuses(scope, Metered(scope, events[..i]), events[i]);
    BilledEarlierStaysFirst(scope, events, i + 1);
    BilledEarlierStaysFirst(scope, events, i);
    assert Metered(scope, events[..i + 1]) == Take(scope, Metered(scope, events[..i]), events[i]);
  }

  /** Exactly which further deliveries leave the bill as it is: those that are out of scope or repeat
      an id or key already billed. */
  lemma {:induction false} BillUnchangedExactly(scope: Scope, events: seq<UsageEvent>, more: seq<UsageEvent>)
    ensures Metered(scope, events + more).accepted == Metered(scope, events).accepted <==>
              forall e :: e in more && InScope(scope, e) ==> Repeats(e, Metered(scope, events).accepted)
    decreases |more|
  {
    hide Take, Repeats, InScope, Metered;
    if more == [] {
      assert events + more == events;
    } else {
      var n := |more| - 1;
      var front := events + more[..n];
      BillUnchangedExactly(scope, events, more[..n]);
      MeteredNext(scope, front, more[n]);
      assert front + [more[n]] == events + more;
      TakeRefuses(scope, Metered(scope, front), more[n]);
      assert front[..|events|] == events;
      BilledEarlierStaysFirst(scope, front, |events|);
      assert more == more[..n] + [more[n]];
    }
  }

  lemma MeteredNext(scope: Scope, events: seq<UsageEvent>, e: UsageEvent)
    ensures Metered(scope, events + [e]) == Take(scope, Metered(scope, events), e)
  {
    hide Take;
    assert (events + [e])[..|events|] == events;
  }

  /** Delivering any already delivered events again, in any order and number, bills nothing. */
  lemma ReplayBillsNothing(scope: Scope, events: seq<UsageEvent>, again: seq<UsageEvent>)
    requires forall e :: e in again ==> e in events
    ensures Metered(scope, events + again).accepted == Metered(scope, events).accepted
  {
    forall e | e in again && InScope(scope, e) ensures Repeats(e, Metered(scope, events).accepted) {
      var i :| 0 <= i < |events| && events[i] == e;
      DroppedOnlyForARepeat(scope, events, i);
      if e in Metered(scope, events).accepted { assert Shares(e, e); }
      if Repeats(e, Metered(scope, events[..i]).accepted) {
        var f :| f in Metered(scope, events[..i]).accepted && Shares(e, f);
        assert f in Metered(scope, events).accepted;
      }
    }
    BillUnchangedExactly(scope, events, again);
  }

  // ---------------------------------------------------------------- arrival order

  /** Events of the scope that share an id or a key are the same event. */
  ghost predicate Consistent(scope: Scope, events: seq<UsageEvent>) {
    forall e, f :: e in events && f in events && InScope(scope, e) && InScope(scope, f) && Shares(e, f) ==> e == f
  }

  ghost predicate SameBill(scope: Scope, a: seq<UsageEvent>, b: seq<UsageEvent>) {
    forall e :: e in Metered(scope, a).accepted <==> e in Metered(scope, b).accepted
  }

  lemma ConsistentBillsEverything(scope: Scope, events: seq<UsageEvent>)
    requires Consistent(scope, events)
    ensures forall e :: e in Metered(scope, events).accepted <==> e in events && InScope(scope, e)
  {
    BilledOnce(scope, events);
    forall e | e in events && InScope(scope, e) ensures e in Metered(scope, events).accepted {
      var i :| 0 <= i < |events| && events[i] == e;
      DroppedOnlyForARepeat(scope, events, i);
      assert forall f :: f in Metered(scope, events[..i]).accepted ==> f in Metered(scope, events).accepted;
    }
  }

  lemma FirstIsBilled(scope: Scope, e: UsageEvent, f: UsageEvent, rest: seq<UsageEvent>)
    requires InScope(scope, e) && Shares(e, f) && e != f
    ensures e in Metered(scope, [e] + rest).accepted && f !in Metered(scope, [e] + rest).accepted
  {
    var all := [e] + rest;
    assert all[..1] == [e] && all[..1][..0] == [];
    assert Metered(scope, all[..1]).accepted == [e];
    BilledEarlierStaysFirst(scope, all, 1);
    BilledOnce(scope, all);
    var a := Metered(scope, all).accepted;
    assert a[0] == e;
    assert forall k :: 0 < k < |a| ==> !Shares(a[k], e);
  }

  lemma MoveToFront(events: seq<UsageEvent>, e: UsageEvent) returns (rest: seq<UsageEvent>)
    requires e in events
    ensures multiset([e] + rest) == multiset(events)
  {
    var i :| 0 <= i < |events| && events[i] == e;
    rest := events[..i] + events[i + 1..];
    assert events == events[..i] + [e] + events[i + 1..];
  }

  /** The bill is the same for every arrival order exactly when no two different events of the scope
      share an id or a key; otherwise whichever of the two comes first is billed. */
  lemma ArrivalOrderIsIrrelevantExactly(scope: Scope, events: seq<UsageEvent>)
    ensures Consistent(scope, events) <==>
              forall other :: multiset(other) == multiset(events) ==> SameBill(scope, events, other)
  {
    if Consistent(scope, events) {
      ConsistentBillsEverything(scope, events);
      forall other | multiset(other) == multiset(events) ensures SameBill(scope, events, other) {
        forall e ensures e in other <==> e in events { assert e in multiset(other) <==> e in multiset(events); }
        ConsistentBillsEverything(scope, other);
      }
    } else {
      var e, f :| e in events && f in events && InScope(scope, e) && InScope(scope, f) && Shares(e, f) && e != f;
      var r := MoveToFront(events, e);
      var s := MoveToFront(events, f);
      FirstIsBilled(scope, e, f, r);
      FirstIsBilled(scope, f, e, s);
      assert !SameBill(scope, events, [e] + r) || !SameBill(scope, events, [f] + s);
    }
  }

  // ---------------------------------------------------------------- what is turned away

  /** Event `i` of the scope came after one with its id was billed. */
  ghost predicate RepeatsId(scope: Scope, events: seq<UsageEvent>, i: int) {
    && 0 <= i < |events| && InScope(scope, events[i])
    && exists f :: f in Metered(scope, events[..i]).accepted && f.id == events[i].id
  }

  /** It came with a new id, after one with its key was billed. */
  ghost predicate RepeatsKey(scope: Scope, events: seq<UsageEvent>, i: int) {
    && 0 <= i < |events| && InScope(scope, events[i]) && !RepeatsId(scope, events, i)
    && exists f :: f in Metered(scope, events[..i]).accepted && f.key == events[i].key
  }

  ghost predicate IdRepeated(scope: Scope, events: seq<UsageEvent>, x: string) {
    exists i :: RepeatsId(scope, events, i) && events[i].id == x
  }

  ghost predicate KeyRepeated(scope: Scope, events: seq<UsageEvent>, x: string) {
    exists i :: RepeatsKey(scope, events, i) && events[i].key == x
  }

  lemma SameBefore(scope: Scope, front: seq<UsageEvent>, e: UsageEvent, i: int)
    requires i < |front|
    ensures RepeatsId(scope, front + [e], i) <==> RepeatsId(scope, front, i)
    ensures RepeatsKey(scope, front + [e], i) <==> RepeatsKey(scope, front, i)
    ensures 0 <= i ==> (front + [e])[i] == front[i]
  {
    hide Metered, InScope;
    if 0 <= i { assert (front + [e])[..i] == front[..i]; }
  }

  lemma RepeatedNext(scope: Scope, front: seq<UsageEvent>, e: UsageEvent, x: string)
    ensures IdRepeated(scope, front + [e], x) <==>
              IdRepeated(scope, front, x) || (RepeatsId(scope, front + [e], |front|) && e.id == x)
    ensures KeyRepeated(scope, front + [e], x) <==>
              KeyRepeated(scope, front, x) || (RepeatsKey(scope, front + [e], |front|) && e.key == x)
  {
    var all := front + [e];
    forall i | i < |front|
      ensures RepeatsId(scope, all, i) <==> RepeatsId(scope, front, i)
      ensures RepeatsKey(scope, all, i) <==> RepeatsKey(scope, front, i)
    {
      SameBefore(scope, front, e, i);
    }
    assert forall i :: RepeatsId(scope, all, i) || RepeatsKey(scope, all, i) ==> i <= |front|;
    hide RepeatsId, RepeatsKey;
    if i :| RepeatsId(scope, front, i) && front[i].id == x { assert all[i].id == x; }
    if i :| RepeatsKey(scope, front, i) && front[i].key == x { assert all[i].key == x; }
    assert all[|front|] == e;
  }

  /** The duplicates reported are the ids of events that repeat an id, and the keys of others that repeat a
      key. */
  lemma {:induction false} DuplicatesExactly(scope: Scope, events: seq<UsageEvent>, x: string)
    ensures x in Metered(scope, events).duplicateIds <==> IdRepeated(scope, events, x)
    ensures x in Metered(scope, events).duplicateKeys <==> KeyRepeated(scope, events, x)
    decreases |events|
  {
    hide Take, IdRepeated, KeyRepeated;
    if events == [] {
      NothingRepeated(scope, x);
    } else {
      var front, e := events[..|events| - 1], events[|events| - 1];
      assert events == front + [e];
      DuplicatesExactly(scope, front, x);
      RepeatedNext(scope, front, e, x);
      TakeTurnsAway(scope, Metered(scope, front), e);
      assert events[..|front|] == front;
    }
  }

  lemma NothingRepeated(scope: Scope, x: string)
    ensures !IdRepeated(scope, [], x) && !KeyRepeated(scope, [], x)
  {}

  lemma TakeTurnsAway(scope: Scope, t: Tally, e: UsageEvent)
    ensures var byId := InScope(scope, e) && exists f :: f in t.accepted && f.id == e.id;
            var byKey := InScope(scope, e) && !byId && exists f :: f in t.accepted && f.key == e.key;
            && Take(scope, t, e).duplicateIds == t.duplicateIds + (if byId then [e.id] else [])
            && Take(scope, t, e).duplicateKeys == t.duplicateKeys + (if byKey then [e.key] else [])
  {}

  // ---------------------------------------------------------------- the money

  /** What is billed: quantity times price of each event, added up. */
  lemma {:induction false} AmountAddsUp(a: seq<UsageEvent>, b: seq<UsageEvent>)
    ensures Amount([]) == 0.0 && (forall e :: Amount([e]) == e.quantity * e.price)
    ensures Amount(a + b) == Amount(a) + Amount(b)
  {
    assert forall e: UsageEvent :: [e][..0] == [];
    if b == [] {
      assert a + b == a;
    } else {
      AmountAddsUp(a, b[..|b| - 1]);
      assert (a + b)[..|a + b| - 1] == a + b[..|b| - 1];
    }
  }

  lemma AmountWithout(a: seq<UsageEvent>, i: nat)
    requires i < |a|
    ensures Amount(a) == Amount(a[..i] + a[i + 1..]) + a[i].quantity * a[i].price
  {
    hide Amount;
    assert a == (a[..i] + [a[i]]) + a[i + 1..];
    AmountAddsUp(a[..i] + [a[i]], a[i + 1..]);
    AmountAddsUp(a[..i], [a[i]]);
    AmountAddsUp(a[..i], a[i + 1..]);
  }

  /** Two listings of the same events, with one event less on each side. */
  lemma RemoveShared(a: seq<UsageEvent>, b: seq<UsageEvent>) returns (i: nat)
    requires multiset(a) == multiset(b) && a != []
    ensures i < |b| && b[i] == a[|a| - 1]
    ensures multiset(a[..|a| - 1]) == multiset(b[..i] + b[i + 1..])
  {
    var e := a[|a| - 1];
    assert e in multiset(b);
    i :| 0 <= i < |b| && b[i] == e;
    var n := |a| - 1;
    assert a[..n] == a[..n] + a[n + 1..];
    Sorting.ElementsWithout(a, n);
    Sorting.ElementsWithout(b, i);
  }

  lemma {:induction false} AmountIgnoresOrder(a: seq<UsageEvent>, b: seq<UsageEvent>)
    requires multiset(a) == multiset(b)
    ensures Amount(a) == Amount(b)
    decreases |a|
  {
    hide Amount;
    if a == [] {
      assert |multiset(b)| == 0;
    } else {
      var i := RemoveShared(a, b);
      AmountIgnoresOrder(a[..|a| - 1], b[..i] + b[i + 1..]);
      AmountWithout(a, |a| - 1);
      AmountWithout(b, i);
      assert a[..|a| - 1] + a[|a| - 1 + 1..] == a[..|a| - 1];
    }
  }

  ghost predicate DistinctIds(a: seq<UsageEvent>) { forall i, j :: 0 <= i < j < |a| ==> a[i].id != a[j].id }

  lemma BilledDistinct(scope: Scope, events: seq<UsageEvent>)
    ensures DistinctIds(Metered(scope, events).accepted)
  {
    BilledOnce(scope, events);
  }

  lemma {:induction false} CountedOnce(a: seq<UsageEvent>, e: UsageEvent)
    requires DistinctIds(a)
    ensures multiset(a)[e] == if e in a then 1 else 0
  {
    if a != [] {
      var front, last := a[..|a| - 1], a[|a| - 1];
      assert a == front + [last];
      CountedOnce(front, e);
    }
  }

  /** So when no two different events of the scope share an id or key, the amount is the same for every
      arrival order. */
  lemma AmountIsOrderFree(scope: Scope, events: seq<UsageEvent>, other: seq<UsageEvent>)
    requires Consistent(scope, events) && multiset(other) == multiset(events)
    ensures Amount(Metered(scope, other).accepted) == Amount(Metered(scope, events).accepted)
  {
    hide Amount, Metered, Consistent;
    ArrivalOrderIsIrrelevantExactly(scope, events);
    assert SameBill(scope, events, other);
    BilledDistinct(scope, events);
    BilledDistinct(scope, other);
    var a, b := Metered(scope, other).accepted, Metered(scope, events).accepted;
    forall e ensures multiset(a)[e] == multiset(b)[e] {
      CountedOnce(a, e);
      CountedOnce(b, e);
    }
    AmountIgnoresOrder(a, b);
  }
}
