/** The economics of AI outcome events: what each workflow is charged, and what was wasted. */
module AiValue {
  import opened Common
  import opened Percentiles
  import opened Rounding

  datatype Model = Model(provider: string, name: string)

  datatype Rate = Rate(inputPerMillion: real, outputPerMillion: real, gpuHour: real, toolCall: real)

  datatype Key = Key(tenant: string, workflow: string)

  datatype Event = Event(id: string, key: Key, model: Model, inputTokens: int, outputTokens: int, gpuSeconds: real,
                         toolCalls: int, attempt: int, accepted: bool, passed: bool, latency: real,
                         businessValue: real, revenue: real)

  datatype Row = Row(events: nat, accepted: nat, passes: nat, cost: real, businessValue: real, revenue: real,
                     latencies: seq<real>)

  const NEW_ROW := Row(0, 0, 0, 0.0, 0.0, 0.0, [])

  /** A workflow as reported: rates, latency, value, revenue and margin in hundredths, costs in
      ten-thousandths. */
  datatype Workflow = Workflow(events: nat, accepted: nat, passRate: int, p95: int, cost: int,
                               costPerAccepted: Option<int>, businessValue: int, revenue: int, margin: int)

  datatype ValueError = NoEvents | DuplicateIds | NegativeSharedCost | MissingRate

  datatype Economics = Economics(workflows: map<Key, Workflow>, total: real, waste: real, wasteShare: int)

  /** What `OutcomeEvent.from_dict` and `RateCard.from_dict` let through. */
  predicate ValidEvent(e: Event) {
    e.inputTokens >= 0 && e.outputTokens >= 0 && e.gpuSeconds >= 0.0 && e.toolCalls >= 0 && e.attempt >= 1
    && e.latency >= 0.0 && e.businessValue >= 0.0 && e.revenue >= 0.0
  }

  predicate ValidRate(r: Rate) {
    r.inputPerMillion >= 0.0 && r.outputPerMillion >= 0.0 && r.gpuHour >= 0.0 && r.toolCall >= 0.0
  }

  // ---------------------------------------------------------------- what an event costs

  function EventCost(e: Event, r: Rate): (c: real)
    ensures ValidEvent(e) && ValidRate(r) ==> c >= 0.0
  {
    e.inputTokens as real / 1000000.0 * r.inputPerMillion + e.outputTokens as real / 1000000.0 * r.outputPerMillion
    + e.gpuSeconds / 3600.0 * r.gpuHour + e.toolCalls as real * r.toolCall
  }

  function Tokens(events: seq<Event>): int {
    if events == [] then 0
    else Tokens(events[..|events| - 1]) + events[|events| - 1].inputTokens + events[|events| - 1].outputTokens
  }

  /** Rates, the shared platform cost and the tokens it is spread over. */
  datatype Pricing = Pricing(rates: map<Model, Rate>, shared: real, tokens: int)

  function DirectCost(p: Pricing, e: Event): real { if e.model in p.rates then EventCost(e, p.rates[e.model]) else 0.0 }

  function SharedPart(p: Pricing, e: Event): real {
    if p.tokens == 0 then 0.0 else p.shared * (e.inputTokens + e.outputTokens) as real / p.tokens as real
  }

  function FullCost(p: Pricing, e: Event): real { DirectCost(p, e) + SharedPart(p, e) }

  predicate Wasted(e: Event) { e.attempt > 1 || !e.accepted }

  function AddTo(p: Pricing, row: Row, e: Event): Row {
    Row(row.events + 1, row.accepted + (if e.accepted then 1 else 0), row.passes + (if e.passed then 1 else 0),
        row.cost + FullCost(p, e), row.businessValue + e.businessValue, row.revenue + e.revenue,
        row.latencies + [e.latency])
  }

  function RowOf(p: Pricing, events: seq<Event>, key: Key): Row {
    if events == [] then NEW_ROW
    else
      var front, last := events[..|events| - 1], events[|events| - 1];
      if last.key == key then AddTo(p, RowOf(p, front, key), last) else RowOf(p, front, key)
  }

  /** The workflows in the order they are first seen. */
  function Keys(events: seq<Event>): (ks: seq<Key>)
    ensures forall i, j :: 0 <= i < j < |ks| ==> ks[i] != ks[j]
  {
    if events == [] then []
    else
      var front := Keys(events[..|events| - 1]);
      if events[|events| - 1].key in front then front else front + [events[|events| - 1].key]
  }

  function DirectCosts(p: Pricing, events: seq<Event>): real {
    if events == [] then 0.0 else DirectCosts(p, events[..|events| - 1]) + DirectCost(p, events[|events| - 1])
  }

  function Waste(p: Pricing, events: seq<Event>): real {
    if events == [] then 0.0
    else
      var last := events[|events| - 1];
      Waste(p, events[..|events| - 1]) + if Wasted(last) then FullCost(p, last) else 0.0
  }

  predicate DistinctIds(events: seq<Event>) { forall i, j :: 0 <= i < j < |events| ==> events[i].id != events[j].id }

  // ---------------------------------------------------------------- what the prices mean

  /** Sums and counts over events. */
  ghost function SumBy(events: seq<Event>, f: Event -> real): real {
    if events == [] then 0.0 else SumBy(events[..|events| - 1], f) + f(events[|events| - 1])
  }

  ghost function TotalBy(events: seq<Event>, f: Event -> int): int {
    if events == [] then 0 else TotalBy(events[..|events| - 1], f) + f(events[|events| - 1])
  }

  ghost function Where(events: seq<Event>, f: Event -> bool): seq<Event> {
    if events == [] then []
    else Where(events[..|events| - 1], f) + if f(events[|events| - 1]) then [events[|events| - 1]] else []
  }

  lemma WhereNext(events: seq<Event>, e: Event, f: Event -> bool)
    ensures Where(events + [e], f) == if f(e) then Where(events, f) + [e] else Where(events, f)
  {
    assert (events + [e])[..|events|] == events;
  }

  lemma SumNext(events: seq<Event>, e: Event, f: Event -> real)
    ensures SumBy(events + [e], f) == SumBy(events, f) + f(e)
  {
    assert (events + [e])[..|events|] == events;
  }

  /** What each rate buys: a million input tokens, a million output tokens, an hour of GPU, a tool call. */
  lemma UnitPrices(e: Event, r: Rate)
    requires e.inputTokens == e.outputTokens == e.toolCalls == 0 && e.gpuSeconds == 0.0
    ensures EventCost(e, r) == 0.0
    ensures EventCost(e.(inputTokens := 1_000_000), r) == r.inputPerMillion
    ensures EventCost(e.(outputTokens := 1_000_000), r) == r.outputPerMillion
    ensures EventCost(e.(gpuSeconds := 3600.0), r) == r.gpuHour
    ensures EventCost(e.(toolCalls := 1), r) == r.toolCall
  {}

  /** Cost adds up over the quantities and over the rates. */
  lemma CostAdds(e: Event, f: Event, g: Event, r: Rate, s: Rate)
    requires g.inputTokens == e.inputTokens + f.inputTokens && g.outputTokens == e.outputTokens + f.outputTokens
    requires g.gpuSeconds == e.gpuSeconds + f.gpuSeconds && g.toolCalls == e.toolCalls + f.toolCalls
    ensures EventCost(g, r) == EventCost(e, r) + EventCost(f, r)
    ensures EventCost(e, Rate(r.inputPerMillion + s.inputPerMillion, r.outputPerMillion + s.outputPerMillion,
                              r.gpuHour + s.gpuHour, r.toolCall + s.toolCall))
         == EventCost(e, r) + EventCost(e, s)
  {}

  /** What a model was used for, at its rates. */
  ghost function ModelCost(events: seq<Event>, m: Model, r: Rate): real {
    var own := Where(events, (e: Event) => e.model == m);
    TotalBy(own, (e: Event) => e.inputTokens) as real * r.inputPerMillion / 1000000.0
    + TotalBy(own, (e: Event) => e.outputTokens) as real * r.outputPerMillion / 1000000.0
    + SumBy(own, (e: Event) => e.gpuSeconds) * r.gpuHour / 3600.0
    + TotalBy(own, (e: Event) => e.toolCalls) as real * r.toolCall
  }

  /** The models used, each once. */
  ghost function Models(events: seq<Event>): (ms: seq<Model>)
    ensures forall i, j :: 0 <= i < j < |ms| ==> ms[i] != ms[j]
    ensures forall e :: e in events ==> e.model in ms
  {
    if events == [] then []
    else
      var front := Models(events[..|events| - 1]);
      assert events == events[..|events| - 1] + [events[|events| - 1]];
      if events[|events| - 1].model in front then front else front + [events[|events| - 1].model]
  }

  /** The cost of the models `ms`, added up. */
  ghost function ModelCosts(rates: map<Model, Rate>, events: seq<Event>, ms: seq<Model>): real {
    if ms == [] then 0.0
    else
      var m := ms[|ms| - 1];
      ModelCosts(rates, events, ms[..|ms| - 1]) + if m in rates then ModelCost(events, m, rates[m]) else 0.0
  }

  lemma SplitPrice(a: real, b: real, rate: real, unit: real)
    requires unit != 0.0
    ensures (a + b) * rate / unit == a * rate / unit + b / unit * rate
  {
    assert (a + b) * rate == a * rate + b * rate;
  }

  /** One event more costs its model its own cost, and the others nothing. */
  lemma ModelCostNext(events: seq<Event>, e: Event, m: Model, r: Rate)
    ensures ModelCost(events + [e], m, r) == ModelCost(events, m, r) + if e.model == m then EventCost(e, r) else 0.0
  {
    var all := events + [e];
    assert all[..|events|] == events;
    var own := Where(events, (x: Event) => x.model == m);
    if e.model == m {
      assert Where(all, (x: Event) => x.model == m) == own + [e];
      assert (own + [e])[..|own|] == own;
      SplitPrice(TotalBy(own, (x: Event) => x.inputTokens) as real, e.inputTokens as real, r.inputPerMillion,
                 1000000.0);
      SplitPrice(TotalBy(own, (x: Event) => x.outputTokens) as real, e.outputTokens as real, r.outputPerMillion,
                 1000000.0);
      SplitPrice(SumBy(own, (x: Event) => x.gpuSeconds), e.gpuSeconds, r.gpuHour, 3600.0);
      SplitPrice(TotalBy(own, (x: Event) => x.toolCalls) as real, e.toolCalls as real, r.toolCall, 1.0);
    } else {
      assert Where(all, (x: Event) => x.model == m) == own;
    }
  }

  lemma {:induction false} ModelCostsNext(p: Pricing, events: seq<Event>, e: Event, ms: seq<Model>)
    requires forall i, j :: 0 <= i < j < |ms| ==> ms[i] != ms[j]
    ensures ModelCosts(p.rates, events + [e], ms)
         == ModelCosts(p.rates, events, ms) + if e.model in ms then DirectCost(p, e) else 0.0
  {
    hide ModelCost, EventCost;
    if ms != [] {
      var front, m := ms[..|ms| - 1], ms[|ms| - 1];
      ModelCostsNext(p, events, e, front);
      assert ms == front + [m];
      if m in p.rates { ModelCostNext(events, e, m, p.rates[m]); }
    }
  }

  lemma {:induction false} UnusedCostsNothing(rates: map<Model, Rate>, events: seq<Event>, m: Model, r: Rate)
    requires forall e :: e in events ==> e.model != m
    ensures ModelCost(events, m, r) == 0.0
    decreases |events|
  {
    if events != [] {
      var front, e := events[..|events| - 1], events[|events| - 1];
      assert events == front + [e];
      UnusedCostsNothing(rates, front, m, r);
      ModelCostNext(front, e, m, r);
    }
  }

  /** The direct costs are what each model was used for, at its own rates. */
  lemma {:induction false} DirectCostsAreModelCosts(p: Pricing, events: seq<Event>)
    ensures DirectCosts(p, events) == ModelCosts(p.rates, events, Models(events))
    decreases |events|
  {
    hide ModelCost, DirectCost, EventCost;
    if events != [] {
      var front, e := events[..|events| - 1], events[|events| - 1];
      var ms := Models(front);
      assert events == front + [e];
      DirectCostsAreModelCosts(p, front);
      ModelCostsNext(p, front, e, Models(events));
      if e.model !in ms {
        assert Models(events)[..|ms|] == ms;
        if e.model in p.rates { UnusedCostsNothing(p.rates, front, e.model, p.rates[e.model]); }
      }
    }
  }

  // ---------------------------------------------------------------- as the program runs it

  method PriceAll(rates: map<Model, Rate>, events: seq<Event>) returns (r: Result<seq<real>, ValueError>)
    ensures r.Err? <==> exists i :: 0 <= i < |events| && events[i].model !in rates
    ensures r.Err? ==> r.error == MissingRate
    ensures r.Ok? ==> |r.value| == |events| && forall i :: 0 <= i < |events| ==>
                events[i].model in rates && r.value[i] == EventCost(events[i], rates[events[i].model])
  {
    var costs: seq<real> := [];
    for i := 0 to |events|
      invariant |costs| == i
      invariant forall k :: 0 <= k < i ==>
                  events[k].model in rates && costs[k] == EventCost(events[k], rates[events[k].model])
    {
      if events[i].model !in rates { return Err(MissingRate); }
      costs := costs + [EventCost(events[i], rates[events[i].model])];
    }
    return Ok(costs);
  }

  ghost predicate RowsAre(p: Pricing, events: seq<Event>, rows: map<Key, Row>) {
    && (forall k :: k in rows <==> k in Keys(events))
    && (forall k :: k in rows ==> rows[k] == RowOf(p, events, k))
  }

  /** One event of the loop: `setdefault` and the updates of its row. */
  method AddEvent(p: Pricing, ghost before: seq<Event>, event: Event, cost: real, rows: map<Key, Row>)
      returns (after: map<Key, Row>)
    requires RowsAre(p, before, rows) && cost == FullCost(p, event)
    ensures RowsAre(p, before + [event], after)
  {
    hide FullCost;
    assert (before + [event])[..|before|] == before;
    UnseenIsEmptyUnless(p, before, event.key);
    after := rows;
    if event.key !in after { after := after[event.key := NEW_ROW]; }
    var row := after[event.key];
    after := after[event.key := Row(row.events + 1, row.accepted + (if event.accepted then 1 else 0),
                                    row.passes + (if event.passed then 1 else 0), row.cost + cost,
                                    row.businessValue + event.businessValue, row.revenue + event.revenue,
                                    row.latencies + [event.latency])];
  }

  lemma UnseenIsEmptyUnless(p: Pricing, events: seq<Event>, key: Key)
    ensures key !in Keys(events) ==> RowOf(p, events, key) == NEW_ROW
  {
    if key !in Keys(events) { UnseenIsEmpty(p, events, key); }
  }

  /** A row some event has been added to. */
  predicate SeenRow(row: Row) { row.events > 0 && |row.latencies| == row.events }

  lemma {:induction false} SeenWhenKeyed(p: Pricing, events: seq<Event>, key: Key)
    ensures |RowOf(p, events, key).latencies| == RowOf(p, events, key).events
    ensures key in Keys(events) ==> SeenRow(RowOf(p, events, key))
  {
    hide FullCost;
    if events != [] { SeenWhenKeyed(p, events[..|events| - 1], key); }
  }

  function Hundredths(x: real): int { HalfEven(x * 100.0) }

  function TenThousandths(x: real): int { HalfEven(x * 10000.0) }

  function Summary(row: Row): Workflow
    requires SeenRow(row)
  {
    Workflow(row.events, row.accepted, Hundredths(row.passes as real / row.events as real * 100.0),
             Hundredths(IntegerRank(row.latencies)), TenThousandths(row.cost),
             if row.accepted == 0 then None else Some(TenThousandths(row.cost / row.accepted as real)),
             Hundredths(row.businessValue), Hundredths(row.revenue),
             if row.revenue == 0.0 then 0 else Hundredths((row.revenue - row.cost) / row.revenue * 100.0))
  }

  /** The wasted share in hundredths of a percent; nothing is wasted of nothing. */
  function ShareOf(waste: real, total: real): (r: int)
    ensures total == 0.0 ==> r == 0
    ensures total != 0.0 ==> -0.5 <= r as real - 10000.0 * (waste / total) <= 0.5
  {
    if total == 0.0 then 0 else Hundredths(waste / total * 100.0)
  }

  method Summaries(p: Pricing, ghost events: seq<Event>, rows: map<Key, Row>) returns (workflows: map<Key, Workflow>)
    requires RowsAre(p, events, rows)
    ensures forall k :: k in workflows <==> k in Keys(events)
    ensures forall k :: k in workflows ==> SeenRow(RowOf(p, events, k)) && workflows[k] == Summary(RowOf(p, events, k))
  {
    hide Summary, RowOf, Keys;
    forall k | k in rows ensures SeenRow(rows[k]) { SeenWhenKeyed(p, events, k); }
    workflows := map k | k in rows :: Summary(rows[k]);
  }

  /** The grouping loop of `evaluate_ai_value` and the workflows reported from it. */
  method EvaluateAiValue(rates: map<Model, Rate>, shared: real, events: seq<Event>)
      returns (r: Result<Economics, ValueError>)
    ensures r == Err(NoEvents) <==> events == []
    ensures r == Err(DuplicateIds) <==> exists i, j :: 0 <= i < j < |events| && events[i].id == events[j].id
    ensures r == Err(NegativeSharedCost) <==> events != [] && DistinctIds(events) && shared < 0.0
    ensures r == Err(MissingRate) <==>
              && events != [] && DistinctIds(events) && shared >= 0.0
              && exists i :: 0 <= i < |events| && events[i].model !in rates
    ensures r.Ok? ==>
              var p := Pricing(rates, shared, Tokens(events));
              && r.value.waste == Waste(p, events) && r.value.total == DirectCosts(p, events) + shared
              && r.value.wasteShare == ShareOf(r.value.waste, r.value.total)
              && r.value.total == ModelCosts(rates, events, Models(events)) + shared
              && (forall k :: k in r.value.workflows <==> k in Keys(events))
              && (forall k :: k in r.value.workflows ==>
                    SeenRow(RowOf(p, events, k)) && r.value.workflows[k] == Summary(RowOf(p, events, k)))
  {
    hide EventCost, SharedPart, RowsAre, RowOf, Keys, Summary, ShareOf, SeenRow;
    hide Waste, DirectCosts, Tokens, ModelCosts, Models;
    if events == [] { return Err(NoEvents); }
    if !DistinctIds(events) { return Err(DuplicateIds); }
    if shared < 0.0 { return Err(NegativeSharedCost); }
    var priced := PriceAll(rates, events);
    if priced.Err? { return Err(priced.error); }
    var p := Pricing(rates, shared, Tokens(events));
    var rows: map<Key, Row> := map[];
    var waste, direct := 0.0, 0.0;
    NoRows(p);
    for i := 0 to |events|
      invariant waste == Waste(p, events[..i]) && direct == DirectCosts(p, events[..i])
      invariant RowsAre(p, events[..i], rows)
    {
      var event := events[i];
      assert events[..i + 1] == events[..i] + [event];
      CostsNext(p, events[..i], event);
      var cost := priced.value[i] + SharedPart(p, event);
      assert cost == FullCost(p, event);
      rows := AddEvent(p, events[..i], event, cost, rows);
      if event.attempt > 1 || !event.accepted { waste := waste + cost; }
      direct := direct + priced.value[i];
    }
    assert events[..|events|] == events;
    var workflows := Summaries(p, events, rows);
    DirectCostsAreModelCosts(p, events);
    return Ok(Economics(workflows, direct + shared, waste, ShareOf(waste, direct + shared)));
  }

  lemma NoRows(p: Pricing)
    ensures RowsAre(p, [], map[]) && Waste(p, []) == 0.0 && DirectCosts(p, []) == 0.0
  {}

  lemma CostsNext(p: Pricing, events: seq<Event>, e: Event)
    ensures Waste(p, events + [e]) == Waste(p, events) + if Wasted(e) then FullCost(p, e) else 0.0
    ensures DirectCosts(p, events + [e]) == DirectCosts(p, events) + DirectCost(p, e)
  {
    hide DirectCost, FullCost;
    assert (events + [e])[..|events|] == events;
  }

  // ---------------------------------------------------------------- conservation

  /** The charges and the events of the workflows `keys`, added up. */
  function Charged(p: Pricing, events: seq<Event>, keys: seq<Key>): real {
    if keys == [] then 0.0 else Charged(p, events, keys[..|keys| - 1]) + RowOf(p, events, keys[|keys| - 1]).cost
  }

  function Counted(p: Pricing, events: seq<Event>, keys: seq<Key>): nat {
    if keys == [] then 0 else Counted(p, events, keys[..|keys| - 1]) + RowOf(p, events, keys[|keys| - 1]).events
  }

  function FullCosts(p: Pricing, events: seq<Event>): real {
    if events == [] then 0.0 else FullCosts(p, events[..|events| - 1]) + FullCost(p, events[|events| - 1])
  }

  lemma {:induction false} OneMoreEvent(p: Pricing, events: seq<Event>, keys: seq<Key>)
    requires events != [] && forall i, j :: 0 <= i < j < |keys| ==> keys[i] != keys[j]
    ensures var e, front := events[|events| - 1], events[..|events| - 1];
            && Charged(p, events, keys) == Charged(p, front, keys) + (if e.key in keys then FullCost(p, e) else 0.0)
            && Counted(p, events, keys) == Counted(p, front, keys) + (if e.key in keys then 1 else 0)
  {
    hide FullCost;
    if keys != [] {
      OneMoreEvent(p, events, keys[..|keys| - 1]);
      assert keys == keys[..|keys| - 1] + [keys[|keys| - 1]];
    }
  }

  lemma {:induction false} UnseenIsEmpty(p: Pricing, events: seq<Event>, key: Key)
    requires key !in Keys(events)
    ensures RowOf(p, events, key) == NEW_ROW
  {
    if events != [] { UnseenIsEmpty(p, events[..|events| - 1], key); }
  }

  lemma {:induction false} NothingYet(p: Pricing, keys: seq<Key>)
    ensures Charged(p, [], keys) == 0.0 && Counted(p, [], keys) == 0
  {
    if keys != [] { NothingYet(p, keys[..|keys| - 1]); }
  }

  /** Every event is in exactly one row, and the rows are charged what the events cost. */
  lemma {:induction false} RowsHoldAllEvents(p: Pricing, events: seq<Event>)
    ensures Charged(p, events, Keys(events)) == FullCosts(p, events)
    ensures Counted(p, events, Keys(events)) == |events|
  {
    hide FullCost, AddTo, RowOf;
    if events != [] {
      var front, e := events[..|events| - 1], events[|events| - 1];
      RowsHoldAllEvents(p, front);
      OneMoreEvent(p, events, Keys(events));
      if e.key !in Keys(front) {
        UnseenIsEmpty(p, front, e.key);
        assert Keys(events)[..|Keys(front)|] == Keys(front);
      }
    }
  }

  lemma ShareOne(shared: real, a: int, b: int, tokens: int)
    requires tokens != 0
    ensures shared * (a + b) as real / tokens as real
         == shared * a as real / tokens as real + shared * b as real / tokens as real
  {
    assert shared * (a + b) as real == shared * a as real + shared * b as real;
  }

  lemma {:induction false} SharedIsSpread(p: Pricing, events: seq<Event>)
    requires p.tokens != 0
    ensures FullCosts(p, events) == DirectCosts(p, events) + p.shared * Tokens(events) as real / p.tokens as real
  {
    hide DirectCost;
    if events != [] {
      var front, e := events[..|events| - 1], events[|events| - 1];
      SharedIsSpread(p, front);
      ShareOne(p.shared, Tokens(front), e.inputTokens + e.outputTokens, p.tokens);
    }
  }

  lemma {:induction false} NothingIsSpread(p: Pricing, events: seq<Event>)
    requires p.tokens == 0
    ensures FullCosts(p, events) == DirectCosts(p, events)
  {
    hide DirectCost;
    if events != [] { NothingIsSpread(p, events[..|events| - 1]); }
  }

  /** The workflows together are charged the reported total when some event has tokens; with no token
      at all they fall short of it by exactly the shared cost. */
  lemma WorkflowsAreChargedTheTotal(rates: map<Model, Rate>, shared: real, events: seq<Event>)
    ensures var p := Pricing(rates, shared, Tokens(events));
            Charged(p, events, Keys(events)) == DirectCosts(p, events) + if p.tokens == 0 then 0.0 else shared
  {
    hide Charged, Keys, FullCosts, DirectCosts, Tokens;
    var p := Pricing(rates, shared, Tokens(events));
    RowsHoldAllEvents(p, events);
    if p.tokens == 0 {
      NothingIsSpread(p, events);
    } else {
      SharedIsSpread(p, events);
      WholeShare(shared, p.tokens as real);
    }
  }

  lemma WholeShare(shared: real, t: real)
    requires t != 0.0
    ensures shared * t / t == shared
  {}

  /** The report always claims full allocation coverage. The claim is true exactly when some event has
      tokens or there is no shared cost to spread. */
  lemma FullCoverageExactly(rates: map<Model, Rate>, shared: real, events: seq<Event>)
    ensures var p := Pricing(rates, shared, Tokens(events));
            Charged(p, events, Keys(events)) == DirectCosts(p, events) + shared <==> p.tokens != 0 || shared == 0.0
  {
    WorkflowsAreChargedTheTotal(rates, shared, events);
  }

  lemma CostsAreNotNegative(p: Pricing, e: Event)
    requires ValidEvent(e) && p.shared >= 0.0 && p.tokens >= 0 && forall m :: m in p.rates ==> ValidRate(p.rates[m])
    ensures DirectCost(p, e) >= 0.0 && SharedPart(p, e) >= 0.0
  {
    hide EventCost;
    assert p.shared * (e.inputTokens + e.outputTokens) as real >= 0.0;
  }

  lemma {:induction false} WasteIsPart(p: Pricing, events: seq<Event>)
    requires p.shared >= 0.0 && p.tokens >= 0
    requires (forall e :: e in events ==> ValidEvent(e)) && forall m :: m in p.rates ==> ValidRate(p.rates[m])
    ensures 0.0 <= Waste(p, events) <= FullCosts(p, events)
    ensures Waste(p, events) == FullCosts(p, events) <== forall e :: e in events ==> Wasted(e)
    decreases |events|
  {
    hide DirectCost, SharedPart, ValidRate, ValidEvent;
    if events != [] {
      var front, e := events[..|events| - 1], events[|events| - 1];
      assert e in events && forall f :: f in front ==> f in events;
      WasteIsPart(p, front);
      CostsAreNotNegative(p, e);
    }
  }

  lemma {:induction false} TokensAreNotNegative(events: seq<Event>)
    requires forall e :: e in events ==> ValidEvent(e)
    ensures Tokens(events) >= 0
    decreases |events|
  {
    if events != [] {
      assert events[|events| - 1] in events && forall f :: f in events[..|events| - 1] ==> f in events;
      TokensAreNotNegative(events[..|events| - 1]);
    }
  }

  /** The waste reported never exceeds the total reported. */
  lemma WasteWithinTotal(rates: map<Model, Rate>, shared: real, events: seq<Event>)
    requires shared >= 0.0
    requires (forall e :: e in events ==> ValidEvent(e)) && forall m :: m in rates ==> ValidRate(rates[m])
    ensures var p := Pricing(rates, shared, Tokens(events));
            0.0 <= Waste(p, events) <= DirectCosts(p, events) + shared
  {
    var p := Pricing(rates, shared, Tokens(events));
    TokensAreNotNegative(events);
    WasteIsPart(p, events);
    RowsHoldAllEvents(p, events);
    WorkflowsAreChargedTheTotal(rates, shared, events);
  }

  // ---------------------------------------------------------------- the report in plain terms

  ghost function TokensOf(events: seq<Event>): int { TotalBy(events, (e: Event) => e.inputTokens + e.outputTokens) }

  /** Direct costs of some of the events, model by model, and their part of the shared cost by tokens. */
  ghost function CostOf(rates: map<Model, Rate>, shared: real, all: seq<Event>, some: seq<Event>): real {
    ModelCosts(rates, some, Models(some))
    + if TokensOf(all) == 0 then 0.0 else shared * TokensOf(some) as real / TokensOf(all) as real
  }

  lemma {:induction false} TokensAreTotal(events: seq<Event>)
    ensures Tokens(events) == TokensOf(events)
  {
    if events != [] { TokensAreTotal(events[..|events| - 1]); }
  }

  lemma CostIs(rates: map<Model, Rate>, shared: real, all: seq<Event>, some: seq<Event>)
    ensures FullCosts(Pricing(rates, shared, Tokens(all)), some) == CostOf(rates, shared, all, some)
  {
    hide FullCosts, DirectCosts, Tokens, ModelCosts, Models, TokensOf;
    var p := Pricing(rates, shared, Tokens(all));
    TokensAreTotal(all);
    TokensAreTotal(some);
    DirectCostsAreModelCosts(p, some);
    if p.tokens == 0 { NothingIsSpread(p, some); } else { SharedIsSpread(p, some); }
  }

  ghost function Latencies(events: seq<Event>): (r: seq<real>)
    ensures |r| == |events| && forall i :: 0 <= i < |events| ==> r[i] == events[i].latency
  {
    seq(|events|, i requires 0 <= i < |events| => events[i].latency)
  }

  /** Events of one workflow, counted and added up. */
  ghost function Filled(p: Pricing, own: seq<Event>): Row {
    Row(|own|, |Where(own, (e: Event) => e.accepted)|, |Where(own, (e: Event) => e.passed)|, FullCosts(p, own),
        SumBy(own, (e: Event) => e.businessValue), SumBy(own, (e: Event) => e.revenue), Latencies(own))
  }

  lemma FilledNext(p: Pricing, own: seq<Event>, e: Event)
    ensures Filled(p, own + [e]) == AddTo(p, Filled(p, own), e)
  {
    hide FullCost, Where, SumBy;
    WhereNext(own, e, (x: Event) => x.accepted);
    WhereNext(own, e, (x: Event) => x.passed);
    SumNext(own, e, (x: Event) => x.businessValue);
    SumNext(own, e, (x: Event) => x.revenue);
    assert (own + [e])[..|own|] == own;
    assert Latencies(own + [e]) == Latencies(own) + [e.latency];
  }

  ghost function Of(events: seq<Event>, key: Key): seq<Event> { Where(events, (e: Event) => e.key == key) }

  lemma OfNext(events: seq<Event>, e: Event, key: Key)
    ensures Of(events + [e], key) == if e.key == key then Of(events, key) + [e] else Of(events, key)
  {
    WhereNext(events, e, (x: Event) => x.key == key);
  }

  lemma NothingFilled(p: Pricing)
    ensures Filled(p, []) == NEW_ROW
  {}

  /** A row holds exactly the events of its workflow. */
  lemma {:induction false} RowIs(p: Pricing, events: seq<Event>, key: Key)
    ensures RowOf(p, events, key) == Filled(p, Of(events, key))
  {
    hide Filled, AddTo;
    if events == [] {
      NothingFilled(p);
    } else {
      var front, e := events[..|events| - 1], events[|events| - 1];
      assert events == front + [e];
      RowIs(p, front, key);
      OfNext(front, e, key);
      FilledNext(p, Of(front, key), e);
    }
  }

  /** `n` is `x` rounded. */
  ghost predicate Near(n: int, x: real) { -0.5 <= n as real - x <= 0.5 }

  /** A reported workflow in plain terms: its events counted, rates in hundredths of a percent, money in
      hundredths, costs in ten-thousandths, and the 95th percentile of its latencies. */
  ghost predicate Tells(w: Workflow, own: seq<Event>, cost: real) {
    var accepted, passed := |Where(own, (e: Event) => e.accepted)|, |Where(own, (e: Event) => e.passed)|;
    var revenue := SumBy(own, (e: Event) => e.revenue);
    && w.events == |own| > 0 && w.accepted == accepted
    && Near(w.passRate, 10000.0 * (passed as real / |own| as real))
    && (exists v :: LeastCovering(Latencies(own), v) && Near(w.p95, 100.0 * v))
    && Near(w.cost, 10000.0 * cost)
    && (w.costPerAccepted.None? <==> accepted == 0)
    && (accepted > 0 ==> Near(w.costPerAccepted.value, 10000.0 * (cost / accepted as real)))
    && Near(w.businessValue, 100.0 * SumBy(own, (e: Event) => e.businessValue)) && Near(w.revenue, 100.0 * revenue)
    && (if revenue == 0.0 then w.margin == 0 else Near(w.margin, 10000.0 * ((revenue - cost) / revenue)))
  }

  lemma SummaryTells(row: Row, own: seq<Event>)
    requires own != []
    requires row == Row(|own|, |Where(own, (e: Event) => e.accepted)|, |Where(own, (e: Event) => e.passed)|,
                        row.cost, SumBy(own, (e: Event) => e.businessValue), SumBy(own, (e: Event) => e.revenue),
                        Latencies(own))
    ensures Tells(Summary(row), own, row.cost)
  {
    hide IntegerRank, LeastCovering, Latencies, Where, SumBy;
    RankIsLeastCovering(row.latencies);
  }

  /** Every reported workflow tells its own events: their counts, and their cost model by model with the part
      of the shared cost their tokens bear. */
  lemma WorkflowsTell(rates: map<Model, Rate>, shared: real, events: seq<Event>, key: Key)
    requires key in Keys(events)
    ensures var own := Of(events, key);
            var row := RowOf(Pricing(rates, shared, Tokens(events)), events, key);
            SeenRow(row) && Tells(Summary(row), own, CostOf(rates, shared, events, own))
  {
    hide Keys, Tells, Summary, FullCosts, Tokens, CostOf, RowOf;
    var p := Pricing(rates, shared, Tokens(events));
    var own := Of(events, key);
    RowIs(p, events, key);
    SeenWhenKeyed(p, events, key);
    CostIs(rates, shared, events, own);
    SummaryTells(RowOf(p, events, key), own);
  }

  /** The events that were retries or not accepted. */
  ghost function Lost(events: seq<Event>): seq<Event> { Where(events, (e: Event) => e.attempt > 1 || !e.accepted) }

  lemma LostNext(events: seq<Event>, e: Event)
    ensures Lost(events + [e]) == if e.attempt > 1 || !e.accepted then Lost(events) + [e] else Lost(events)
  {
    WhereNext(events, e, (x: Event) => x.attempt > 1 || !x.accepted);
  }

  /** Waste is their cost. */
  lemma WasteTells(rates: map<Model, Rate>, shared: real, events: seq<Event>)
    ensures Waste(Pricing(rates, shared, Tokens(events)), events) == CostOf(rates, shared, events, Lost(events))
  {
    hide CostOf, Tokens, Lost;
    WasteIsLost(Pricing(rates, shared, Tokens(events)), events);
    CostIs(rates, shared, events, Lost(events));
  }

  lemma FullCostsNext(p: Pricing, events: seq<Event>, e: Event)
    ensures FullCosts(p, events + [e]) == FullCosts(p, events) + FullCost(p, e)
  {
    hide FullCost;
    assert (events + [e])[..|events|] == events;
  }

  lemma NothingLost(p: Pricing)
    ensures Waste(p, []) == FullCosts(p, Lost([])) == 0.0
  {}

  lemma {:induction false} WasteIsLost(p: Pricing, events: seq<Event>)
    ensures Waste(p, events) == FullCosts(p, Lost(events))
  {
    hide FullCost, FullCosts, Lost, Waste, Wasted;
    if events == [] {
      NothingLost(p);
    } else {
      var front, e := events[..|events| - 1], events[|events| - 1];
      assert events == front + [e];
      WasteIsLost(p, front);
      CostsNext(p, front, e);
      LostNext(front, e);
      FullCostsNext(p, Lost(front), e);
      WhenWasted(e);
    }
  }

  lemma WhenWasted(e: Event)
    ensures Wasted(e) <==> e.attempt > 1 || !e.accepted
  {}
}
