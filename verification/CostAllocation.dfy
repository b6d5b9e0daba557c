/** Allocating cost records to workloads: direct, shared by a usage driver, or left unallocated. */
module CostAllocation {
  import opened Common
  import opened Rounding

  /** `driver` is empty when the record names none. */
  datatype Record = Record(cost: real, allocation: string, driver: string)

  datatype Demand = Demand(id: string, drivers: map<string, real>)

  datatype AllocationError = NoWorkloads | NegativeCost

  datatype Allocation = Allocation(borne: map<string, int>, unallocated: int)

  // ---------------------------------------------------------------- where each cost goes

  predicate Distinct(ws: seq<Demand>) { forall i, j :: 0 <= i < j < |ws| ==> ws[i].id != ws[j].id }

  /** `workloads[d.id] = d`: a repeated id keeps its place and takes the later record. */
  function Put(ws: seq<Demand>, d: Demand): seq<Demand> {
    if ws == [] then [d]
    else if ws[0].id == d.id then [d] + ws[1..]
    else [ws[0]] + Put(ws[1..], d)
  }

  lemma {:induction false} PutKeepsDistinct(ws: seq<Demand>, d: Demand)
    requires Distinct(ws)
    ensures Distinct(Put(ws, d))
    ensures forall w :: w in Put(ws, d) ==> w == d || w in ws
  {
    if ws != [] && ws[0].id != d.id {
      PutKeepsDistinct(ws[1..], d);
      var rest := Put(ws[1..], d);
      forall k | 0 <= k < |rest| ensures rest[k].id != ws[0].id {
        assert rest[k] == d || rest[k] in ws[1..];
        assert forall m :: 0 <= m < |ws| - 1 ==> ws[1..][m] == ws[m + 1];
      }
    }
  }

  function Workloads(demands: seq<Demand>): (ws: seq<Demand>)
    ensures Distinct(ws)
  {
    if demands == [] then []
    else
      var front := Workloads(demands[..|demands| - 1]);
      PutKeepsDistinct(front, demands[|demands| - 1]);
      Put(front, demands[|demands| - 1])
  }

  function Lookup(ws: seq<Demand>, id: string): Option<Demand> {
    if ws == [] then None else if ws[0].id == id then Some(ws[0]) else Lookup(ws[1..], id)
  }

  function Latest(demands: seq<Demand>, id: string): Option<Demand> {
    if demands == [] then None
    else if demands[|demands| - 1].id == id then Some(demands[|demands| - 1])
    else Latest(demands[..|demands| - 1], id)
  }

  lemma {:induction false} PutIsLookup(ws: seq<Demand>, d: Demand, id: string)
    ensures Lookup(Put(ws, d), id) == if id == d.id then Some(d) else Lookup(ws, id)
  {
    if ws != [] && ws[0].id != d.id { PutIsLookup(ws[1..], d, id); }
  }

  /** Each workload stands for its latest demand record. */
  lemma {:induction false} WorkloadsAreLatest(demands: seq<Demand>, id: string)
    ensures Lookup(Workloads(demands), id) == Latest(demands, id)
  {
    if demands != [] {
      WorkloadsAreLatest(demands[..|demands| - 1], id);
      PutIsLookup(Workloads(demands[..|demands| - 1]), demands[|demands| - 1], id);
    }
  }

  function Weight(w: Demand, driver: string): real { if driver in w.drivers then w.drivers[driver] else 0.0 }

  function TotalWeight(ws: seq<Demand>, driver: string): real {
    if ws == [] then 0.0 else TotalWeight(ws[..|ws| - 1], driver) + Weight(ws[|ws| - 1], driver)
  }

  predicate Known(ws: seq<Demand>, id: string) { exists w | w in ws :: w.id == id }

  predicate Direct(ws: seq<Demand>, r: Record) { Known(ws, r.allocation) }

  predicate IsSplit(ws: seq<Demand>, r: Record) {
    !Direct(ws, r) && r.allocation == "shared" && r.driver != "" && TotalWeight(ws, r.driver) > 0.0
  }

  /** What workload `w` bears of record `r`. */
  function Share(ws: seq<Demand>, r: Record, w: Demand): real {
    if Direct(ws, r) then if w.id == r.allocation then r.cost else 0.0
    else if IsSplit(ws, r) then r.cost * Weight(w, r.driver) / TotalWeight(ws, r.driver)
    else 0.0
  }

  function Leftover(ws: seq<Demand>, r: Record): real { if Direct(ws, r) || IsSplit(ws, r) then 0.0 else r.cost }

  function Borne(ws: seq<Demand>, records: seq<Record>, w: Demand): real {
    if records == [] then 0.0 else Borne(ws, records[..|records| - 1], w) + Share(ws, records[|records| - 1], w)
  }

  function Unallocated(ws: seq<Demand>, records: seq<Record>): real {
    if records == [] then 0.0 else Unallocated(ws, records[..|records| - 1]) + Leftover(ws, records[|records| - 1])
  }

  function Total(records: seq<Record>): real {
    if records == [] then 0.0 else Total(records[..|records| - 1]) + records[|records| - 1].cost
  }

  // ---------------------------------------------------------------- as the program runs it

  ghost predicate Holds(ws: seq<Demand>, records: seq<Record>, borne: map<string, real>) {
    (forall id :: id in borne <==> Known(ws, id)) && forall k :: 0 <= k < |ws| ==> HoldsAt(ws, records, borne, ws[k])
  }

  ghost predicate HoldsAt(ws: seq<Demand>, records: seq<Record>, borne: map<string, real>, w: Demand) {
    w.id in borne && borne[w.id] == Borne(ws, records, w)
  }

  lemma BorneNext(ws: seq<Demand>, records: seq<Record>, r: Record, w: Demand)
    ensures Borne(ws, records + [r], w) == Borne(ws, records, w) + Share(ws, r, w)
  {
    hide Share;
    assert (records + [r])[..|records|] == records;
  }

  lemma SplitShare(ws: seq<Demand>, r: Record, w: Demand)
    requires IsSplit(ws, r)
    ensures Share(ws, r, w) == r.cost * Weight(w, r.driver) / TotalWeight(ws, r.driver)
  {
    hide Known, TotalWeight, Weight;
  }

  method AddDirect(ws: seq<Demand>, ghost before: seq<Record>, r: Record, borne: map<string, real>)
    returns (after: map<string, real>)
    requires Holds(ws, before, borne) && Direct(ws, r)
    ensures Holds(ws, before + [r], after)
  {
    after := borne[r.allocation := borne[r.allocation] + r.cost];
    forall k | 0 <= k < |ws| ensures HoldsAt(ws, before + [r], after, ws[k]) {
      BorneNext(ws, before, r, ws[k]);
      assert HoldsAt(ws, before, borne, ws[k]);
    }
  }

  method AddSplit(ws: seq<Demand>, ghost before: seq<Record>, r: Record, borne: map<string, real>)
    returns (after: map<string, real>)
    requires Distinct(ws) && Holds(ws, before, borne) && IsSplit(ws, r)
    ensures Holds(ws, before + [r], after)
  {
    hide IsSplit, Borne, Share, Known, Weight;
    var total := TotalWeight(ws, r.driver);
    after := borne;
    assert total > 0.0 by { SplitIsPositive(ws, r); }
    for i := 0 to |ws|
      invariant after.Keys == borne.Keys
      invariant forall k :: 0 <= k < i ==> HoldsAt(ws, before + [r], after, ws[k])
      invariant forall k :: i <= k < |ws| ==> HoldsAt(ws, before, after, ws[k])
    {
      ghost var was := after;
      BorneNext(ws, before, r, ws[i]);
      SplitShare(ws, r, ws[i]);
      after := after[ws[i].id := after[ws[i].id] + r.cost * Weight(ws[i], r.driver) / total];
      assert HoldsAt(ws, before, was, ws[i]);
      assert forall k :: 0 <= k < |ws| && k != i ==> after[ws[k].id] == was[ws[k].id];
    }
  }

  lemma SplitIsPositive(ws: seq<Demand>, r: Record)
    requires IsSplit(ws, r)
    ensures TotalWeight(ws, r.driver) > 0.0
  {}

  lemma AddNothing(ws: seq<Demand>, before: seq<Record>, r: Record, borne: map<string, real>)
    requires Holds(ws, before, borne) && !Direct(ws, r) && !IsSplit(ws, r)
    ensures Holds(ws, before + [r], borne)
  {
    forall k | 0 <= k < |ws| ensures HoldsAt(ws, before + [r], borne, ws[k]) {
      BorneNext(ws, before, r, ws[k]);
      assert HoldsAt(ws, before, borne, ws[k]);
    }
  }

  /** `_allocate_costs`: the errors, then the cents borne by each workload and by none. */
  method AllocateCosts(records: seq<Record>, demands: seq<Demand>) returns (r: Result<Allocation, AllocationError>)
    ensures r == Err(NoWorkloads) <==> Workloads(demands) == []
    ensures r == Err(NegativeCost) <==> Workloads(demands) != [] && exists x :: x in records && x.cost < 0.0
    ensures r.Ok? ==> IsReport(Workloads(demands), records, r.value)
  {
    hide Share, Borne, Cents, TotalWeight, Workloads, Known, IsSplit;
    var ws := Workloads(demands);
    if ws == [] { return Err(NoWorkloads); }
    var borne := StartAtZero(ws);
    var unallocated := 0.0;
    for i := 0 to |records|
      invariant Holds(ws, records[..i], borne)
      invariant unallocated == Unallocated(ws, records[..i])
      invariant forall k :: 0 <= k < i ==> records[k].cost >= 0.0
    {
      var record := records[i];
      if record.cost < 0.0 { return Err(NegativeCost); }
      assert records[..i + 1] == records[..i] + [record];
      assert records[..i + 1][..i] == records[..i];
      SplitWhen(ws, record);
      if Direct(ws, record) {
        borne := AddDirect(ws, records[..i], record, borne);
      } else if record.allocation != "shared" || record.driver == "" || TotalWeight(ws, record.driver) <= 0.0 {
        AddNothing(ws, records[..i], record, borne);
        unallocated := unallocated + record.cost;
      } else {
        borne := AddSplit(ws, records[..i], record, borne);
      }
    }
    assert records[..|records|] == records;
    r := Ok(Allocation(map id | id in borne :: Cents(borne[id]), Cents(unallocated)));
  }

  /** The reported cents: each workload's part and the unallocated part, each rounded once. */
  ghost predicate IsReport(ws: seq<Demand>, records: seq<Record>, a: Allocation) {
    && (forall id :: id in a.borne <==> Known(ws, id))
    && (forall k :: 0 <= k < |ws| ==> ws[k].id in a.borne && a.borne[ws[k].id] == Cents(Borne(ws, records, ws[k])))
    && a.unallocated == Cents(Unallocated(ws, records))
  }

  method StartAtZero(ws: seq<Demand>) returns (borne: map<string, real>)
    ensures Holds(ws, [], borne)
  {
    borne := map w | w in ws :: w.id := 0.0;
  }

  lemma SplitWhen(ws: seq<Demand>, r: Record)
    ensures IsSplit(ws, r) <==>
              !Direct(ws, r) && r.allocation == "shared" && r.driver != "" && TotalWeight(ws, r.driver) > 0.0
  {}

  // ---------------------------------------------------------------- who bears what

  /** A record allocated to a workload is borne by it alone; a shared one with a usage driver is borne by the
      weights of that driver, in proportion, when they add up to something; any other by nobody. */
  lemma SharesExactly(ws: seq<Demand>, r: Record, w: Demand, v: Demand)
    requires w in ws && v in ws
    ensures var total := TotalWeight(ws, r.driver);
            var direct := exists d :: d in ws && d.id == r.allocation;
            && (direct ==> Share(ws, r, w) == (if w.id == r.allocation then r.cost else 0.0))
            && (!direct && r.allocation == "shared" && r.driver != "" && total > 0.0 ==>
                  && Share(ws, r, w) * total == r.cost * Weight(w, r.driver)
                  && Share(ws, r, w) * Weight(v, r.driver) == Share(ws, r, v) * Weight(w, r.driver))
            && (!direct && !(r.allocation == "shared" && r.driver != "" && total > 0.0) ==>
                  Share(ws, r, w) == 0.0 && Leftover(ws, r) == r.cost)
            && (direct || (r.allocation == "shared" && r.driver != "" && total > 0.0) ==> Leftover(ws, r) == 0.0)
  {
    hide Weight, TotalWeight;
    if IsSplit(ws, r) {
      InProportion(r.cost, Weight(w, r.driver), Weight(v, r.driver), TotalWeight(ws, r.driver));
    }
  }

  lemma InProportion(cost: real, a: real, b: real, total: real)
    requires total > 0.0
    ensures cost * a / total * total == cost * a
    ensures (cost * a / total) * b == (cost * b / total) * a
  {
    assert cost * a / total == cost / total * a && cost * b / total == cost / total * b;
  }

  /** A workload that does not state a driver has no weight for it; weights add up one by one. */
  lemma {:induction false} WeightsAddUp(a: seq<Demand>, b: seq<Demand>, driver: string)
    ensures TotalWeight([], driver) == 0.0
    ensures forall w :: TotalWeight([w], driver) == if driver in w.drivers then w.drivers[driver] else 0.0
    ensures TotalWeight(a + b, driver) == TotalWeight(a, driver) + TotalWeight(b, driver)
    decreases |b|
  {
    assert forall w: Demand :: [w][..0] == [];
    if b == [] {
      assert a + b == a;
    } else {
      WeightsAddUp(a, b[..|b| - 1], driver);
      assert (a + b)[..|a + b| - 1] == a + b[..|b| - 1];
    }
  }

  // ---------------------------------------------------------------- conservation

  /** What the workloads of `part` bear of one record. */
  function Shares(ws: seq<Demand>, r: Record, part: seq<Demand>): real {
    if part == [] then 0.0 else Shares(ws, r, part[..|part| - 1]) + Share(ws, r, part[|part| - 1])
  }

  lemma {:induction false} OneBearsADirectCost(ws: seq<Demand>, r: Record, part: seq<Demand>)
    requires Direct(ws, r) && Distinct(part)
    ensures Shares(ws, r, part) == if Direct(part, r) then r.cost else 0.0
  {
    if part != [] {
      var front, last := part[..|part| - 1], part[|part| - 1];
      OneBearsADirectCost(ws, r, front);
      assert part == front + [last];
      assert Direct(part, r) <==> Direct(front, r) || last.id == r.allocation;
      assert last.id == r.allocation ==> !Direct(front, r);
    }
  }

  lemma Distribute(c: real, a: real, b: real, t: real)
    requires t != 0.0
    ensures c * (a + b) / t == c * a / t + c * b / t
  {
    assert c * (a + b) == c * a + c * b;
  }

  lemma {:induction false} WeightsBearASplitCost(ws: seq<Demand>, r: Record, part: seq<Demand>)
    requires IsSplit(ws, r)
    ensures Shares(ws, r, part) == r.cost * TotalWeight(part, r.driver) / TotalWeight(ws, r.driver)
  {
    hide IsSplit, Share, Weight;
    SplitIsPositive(ws, r);
    var t := TotalWeight(ws, r.driver);
    if part != [] {
      var front, last := part[..|part| - 1], part[|part| - 1];
      WeightsBearASplitCost(ws, r, front);
      SplitShare(ws, r, last);
      Distribute(r.cost, TotalWeight(front, r.driver), Weight(last, r.driver), t);
    }
  }

  lemma RecordIsConserved(ws: seq<Demand>, r: Record)
    requires Distinct(ws)
    ensures Shares(ws, r, ws) + Leftover(ws, r) == r.cost
  {
    if Direct(ws, r) {
      OneBearsADirectCost(ws, r, ws);
    } else if IsSplit(ws, r) {
      WeightsBearASplitCost(ws, r, ws);
    } else {
      NothingShared(ws, r, ws);
    }
  }

  lemma {:induction false} NothingShared(ws: seq<Demand>, r: Record, part: seq<Demand>)
    requires !Direct(ws, r) && !IsSplit(ws, r)
    ensures Shares(ws, r, part) == 0.0
  {
    if part != [] { NothingShared(ws, r, part[..|part| - 1]); }
  }

  /** What the workloads of `part` bear of all records. */
  function AllBorne(ws: seq<Demand>, records: seq<Record>, part: seq<Demand>): real {
    if part == [] then 0.0 else AllBorne(ws, records, part[..|part| - 1]) + Borne(ws, records, part[|part| - 1])
  }

  lemma {:induction false} OneMoreRecord(ws: seq<Demand>, records: seq<Record>, part: seq<Demand>)
    requires records != []
    ensures AllBorne(ws, records, part)
         == AllBorne(ws, records[..|records| - 1], part) + Shares(ws, records[|records| - 1], part)
  {
    if part != [] { OneMoreRecord(ws, records, part[..|part| - 1]); }
  }

  lemma {:induction false} NothingBorne(ws: seq<Demand>, part: seq<Demand>)
    ensures AllBorne(ws, [], part) == 0.0
  {
    if part != [] { NothingBorne(ws, part[..|part| - 1]); }
  }

  /** Before rounding, the workloads and the unallocated part bear exactly the total, for all records,
      drivers and weights. */
  lemma {:induction false} MoneyIsConserved(ws: seq<Demand>, records: seq<Record>)
    requires Distinct(ws)
    ensures AllBorne(ws, records, ws) + Unallocated(ws, records) == Total(records)
    decreases |records|
  {
    if records == [] {
      NothingBorne(ws, ws);
    } else {
      MoneyIsConserved(ws, records[..|records| - 1]);
      OneMoreRecord(ws, records, ws);
      RecordIsConserved(ws, records[|records| - 1]);
    }
  }

  function ReportedCents(ws: seq<Demand>, records: seq<Record>, part: seq<Demand>): int {
    if part == [] then 0
    else ReportedCents(ws, records, part[..|part| - 1]) + Cents(Borne(ws, records, part[|part| - 1]))
  }

  lemma {:induction false} RoundingDrift(ws: seq<Demand>, records: seq<Record>, part: seq<Demand>)
    ensures var drift := ReportedCents(ws, records, part) as real - 100.0 * AllBorne(ws, records, part);
            -(|part| as real) <= 2.0 * drift <= |part| as real
  {
    if part != [] { RoundingDrift(ws, records, part[..|part| - 1]); }
  }

  /** The cents of every workload and of the unallocated part add up to the reported total within half
      a cent for each reported amount. */
  lemma ReportAddsUp(ws: seq<Demand>, records: seq<Record>)
    requires Distinct(ws)
    ensures var gap := ReportedCents(ws, records, ws) + Cents(Unallocated(ws, records)) - Cents(Total(records));
            -(|ws| + 2) <= 2 * gap <= |ws| + 2
  {
    MoneyIsConserved(ws, records);
    RoundingDrift(ws, records, ws);
    var b, u, t := AllBorne(ws, records, ws), Unallocated(ws, records), Total(records);
    var gap := ReportedCents(ws, records, ws) + Cents(u) - Cents(t);
    assert -0.5 <= Cents(u) as real - u * 100.0 <= 0.5 && -0.5 <= Cents(t) as real - t * 100.0 <= 0.5;
    assert -((|ws| + 2) as real) <= 2.0 * gap as real <= (|ws| + 2) as real;
  }

  // ---------------------------------------------------------------- who can be credited

  ghost predicate NobodyIsCredited(ws: seq<Demand>) {
    forall records: seq<Record>, w: Demand :: w in ws && (forall r :: r in records ==> r.cost >= 0.0) ==>
      Borne(ws, records, w) >= 0.0
  }

  ghost predicate FairWeights(ws: seq<Demand>) {
    (exists w :: w in ws && w.id == "shared")
    || forall w, driver :: w in ws && driver != "" && TotalWeight(ws, driver) > 0.0 ==> Weight(w, driver) >= 0.0
  }

  lemma {:induction false} FairShares(ws: seq<Demand>, records: seq<Record>, w: Demand)
    requires FairWeights(ws) && w in ws && forall r :: r in records ==> r.cost >= 0.0
    ensures Borne(ws, records, w) >= 0.0
    decreases |records|
  {
    if records != [] {
      FairShares(ws, records[..|records| - 1], w);
      var r := records[|records| - 1];
      assert r in records;
      if IsSplit(ws, r) {
        assert Weight(w, r.driver) >= 0.0;
        assert r.cost * Weight(w, r.driver) >= 0.0;
      }
    }
  }

  /** Driver weights may be negative. No workload can end up with a negative cost, whatever the
      records, exactly when no driver with a positive total has a negative weight, or a workload named
      "shared" takes every shared record directly. */
  lemma NobodyIsCreditedExactly(ws: seq<Demand>)
    ensures NobodyIsCredited(ws) <==> FairWeights(ws)
  {
    if FairWeights(ws) {
      forall records: seq<Record>, w: Demand | w in ws && (forall r :: r in records ==> r.cost >= 0.0)
        ensures Borne(ws, records, w) >= 0.0
      {
        FairShares(ws, records, w);
      }
    } else {
      var w, driver :| w in ws && driver != "" && TotalWeight(ws, driver) > 0.0 && Weight(w, driver) < 0.0;
      var r := Record(1.0, "shared", driver);
      assert IsSplit(ws, r);
      assert [r][..0] == [];
      assert Borne(ws, [r], w) == Share(ws, r, w) == Weight(w, driver) / TotalWeight(ws, driver);
      assert Borne(ws, [r], w) < 0.0;
    }
  }
}
