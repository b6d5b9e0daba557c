/** Releasing data products: which contracts fail, and whom a failure reaches. */
module DataRelease {
  import opened Common
  import opened Lineage

  datatype FieldContract = FieldContract(name: string, dataType: string, unit: string, nullable: bool, minimum: real,
                                         maximum: real)

  datatype Contract = Contract(id: string, maximumAge: int, minimumCompleteness: real, maximumVariance: real,
                               marginPerHour: real, fields: seq<FieldContract>)

  datatype FieldObservation = FieldObservation(name: string, dataType: string, unit: string, nulls: int,
                                               minimum: real, maximum: real)

  datatype Observation = Observation(id: string, pipelineStatus: string, age: int, completeness: real, variance: real,
                                     fields: seq<FieldObservation>)

  datatype FieldFailure = FieldMissing | TypeChanged | UnitChanged | NullsPresent | OutOfRange

  datatype Failure = PipelineFailed | Stale | Incomplete | Unreconciled | OfField(name: string, failure: FieldFailure)

  datatype ReleaseError = NoContracts | DuplicateIds | ObservationsMissing

  // ---------------------------------------------------------------- one product

  /** `{item.name: item}`: the last observation of a field counts. */
  function FieldOf(fields: seq<FieldObservation>, name: string): Option<FieldObservation> {
    if fields == [] then None
    else if fields[|fields| - 1].name == name then Some(fields[|fields| - 1])
    else FieldOf(fields[..|fields| - 1], name)
  }

  function FieldFailures(f: FieldContract, observed: Option<FieldObservation>): seq<FieldFailure> {
    if observed.None? then [FieldMissing]
    else
      var o := observed.value;
      (if o.dataType != f.dataType then [TypeChanged] else [])
      + (if o.unit != f.unit then [UnitChanged] else [])
      + (if !f.nullable && o.nulls != 0 then [NullsPresent] else [])
      + (if o.minimum < f.minimum || o.maximum > f.maximum then [OutOfRange] else [])
  }

  function Named(name: string, failures: seq<FieldFailure>): (r: seq<Failure>)
    ensures |r| == |failures|
  {
    seq(|failures|, i requires 0 <= i < |failures| => OfField(name, failures[i]))
  }

  function AllFieldFailures(fields: seq<FieldContract>, observed: seq<FieldObservation>): seq<Failure> {
    if fields == [] then []
    else
      var last := fields[|fields| - 1];
      AllFieldFailures(fields[..|fields| - 1], observed)
          + Named(last.name, FieldFailures(last, FieldOf(observed, last.name)))
  }

  function When(failed: bool, f: Failure): seq<Failure> { if failed then [f] else [] }

  function ProductFailures(c: Contract, o: Observation): seq<Failure> {
    When(o.pipelineStatus != "succeeded", PipelineFailed) + When(o.age > c.maximumAge, Stale)
    + When(o.completeness < c.minimumCompleteness, Incomplete) + When(o.variance > c.maximumVariance, Unreconciled)
  }

  function Failures(c: Contract, o: Observation): seq<Failure> {
    ProductFailures(c, o) + AllFieldFailures(c.fields, o.fields)
  }

  ghost predicate FieldMet(f: FieldContract, observed: seq<FieldObservation>) {
    && FieldOf(observed, f.name).Some?
    && var o := FieldOf(observed, f.name).value;
    && o.dataType == f.dataType && o.unit == f.unit && (f.nullable || o.nulls == 0)
    && f.minimum <= o.minimum && o.maximum <= f.maximum
  }

  /** What a contract asks of an observation. */
  ghost predicate Meets(c: Contract, o: Observation) {
    && o.pipelineStatus == "succeeded" && o.age <= c.maximumAge && o.completeness >= c.minimumCompleteness
    && o.variance <= c.maximumVariance && forall f :: f in c.fields ==> FieldMet(f, o.fields)
  }

  lemma FieldExactly(f: FieldContract, observed: seq<FieldObservation>)
    ensures FieldFailures(f, FieldOf(observed, f.name)) == [] <==> FieldMet(f, observed)
  {
    hide FieldOf;
  }

  lemma {:induction false} FieldsExactly(fields: seq<FieldContract>, observed: seq<FieldObservation>)
    ensures AllFieldFailures(fields, observed) == [] <==> forall f :: f in fields ==> FieldMet(f, observed)
  {
    hide FieldFailures, FieldMet, FieldOf;
    if fields != [] {
      var front, last := fields[..|fields| - 1], fields[|fields| - 1];
      FieldsExactly(front, observed);
      FieldExactly(last, observed);
      assert fields == front + [last];
    }
  }

  /** A product passes exactly when its observation meets its whole contract. */
  lemma PassesExactly(c: Contract, o: Observation)
    ensures Failures(c, o) == [] <==> Meets(c, o)
  {
    hide AllFieldFailures, FieldMet;
    FieldsExactly(c.fields, o.fields);
  }

  /** Observation `i` of a field is its last. */
  ghost predicate LastField(fields: seq<FieldObservation>, i: int, name: string) {
    0 <= i < |fields| && fields[i].name == name && forall j :: i < j < |fields| ==> fields[j].name != name
  }

  lemma {:induction false} FieldOfIsLast(fields: seq<FieldObservation>, name: string)
    ensures FieldOf(fields, name).None? ==> forall i :: 0 <= i < |fields| ==> fields[i].name != name
    ensures FieldOf(fields, name).Some? ==>
              exists i :: LastField(fields, i, name) && fields[i] == FieldOf(fields, name).value
  {
    if fields != [] {
      var front, n := fields[..|fields| - 1], |fields| - 1;
      FieldOfIsLast(front, name);
      assert forall i :: 0 <= i < n ==> front[i] == fields[i];
      if fields[n].name == name {
        assert LastField(fields, n, name);
      } else if FieldOf(front, name).Some? {
        var i :| LastField(front, i, name) && front[i] == FieldOf(front, name).value;
        assert LastField(fields, i, name);
      }
    }
  }

  /** What the last observation of a contracted field, if any, shows wrong. */
  ghost predicate Wrong(f: FieldContract, observed: Option<FieldObservation>, failure: FieldFailure) {
    match failure
    case FieldMissing => observed.None?
    case TypeChanged => observed.Some? && observed.value.dataType != f.dataType
    case UnitChanged => observed.Some? && observed.value.unit != f.unit
    case NullsPresent => observed.Some? && !f.nullable && observed.value.nulls != 0
    case OutOfRange => observed.Some? && (observed.value.minimum < f.minimum || f.maximum < observed.value.maximum)
  }

  /** A product's failures, each for its own reason. */
  ghost predicate Fails(c: Contract, o: Observation, failure: Failure) {
    match failure
    case PipelineFailed => o.pipelineStatus != "succeeded"
    case Stale => c.maximumAge < o.age
    case Incomplete => o.completeness < c.minimumCompleteness
    case Unreconciled => c.maximumVariance < o.variance
    case OfField(name, x) => exists f :: f in c.fields && f.name == name && Wrong(f, FieldOf(o.fields, name), x)
  }

  lemma NamedExactly(f: FieldContract, observed: Option<FieldObservation>, failure: Failure)
    ensures failure in Named(f.name, FieldFailures(f, observed)) <==>
              failure.OfField? && failure.name == f.name && Wrong(f, observed, failure.failure)
  {
    var failures := FieldFailures(f, observed);
    var named := Named(f.name, failures);
    assert forall i :: 0 <= i < |failures| ==> named[i] == OfField(f.name, failures[i]);
    if failure.OfField? {
      assert failure.failure in failures <==> Wrong(f, observed, failure.failure);
      if failure.name == f.name && failure.failure in failures {
        var i :| 0 <= i < |failures| && failures[i] == failure.failure;
        assert named[i] == failure;
      }
    }
  }

  lemma {:induction false} FieldFailsExactly(fields: seq<FieldContract>, observed: seq<FieldObservation>,
                                             failure: Failure)
    ensures failure in AllFieldFailures(fields, observed) <==>
              && failure.OfField?
              && exists f :: f in fields && f.name == failure.name
                             && Wrong(f, FieldOf(observed, f.name), failure.failure)
  {
    hide FieldFailures, FieldOf, Wrong, Named;
    if fields != [] {
      var front, last := fields[..|fields| - 1], fields[|fields| - 1];
      FieldFailsExactly(front, observed, failure);
      NamedExactly(last, FieldOf(observed, last.name), failure);
      assert fields == front + [last];
    }
  }

  lemma ProductFailsExactly(c: Contract, o: Observation, failure: Failure)
    ensures failure in ProductFailures(c, o) <==> !failure.OfField? && Fails(c, o, failure)
  {}

  /** The checks list exactly the failures there are. */
  lemma FailsExactly(c: Contract, o: Observation, failure: Failure)
    ensures failure in Failures(c, o) <==> Fails(c, o, failure)
  {
    hide AllFieldFailures, FieldOf, Wrong, ProductFailures;
    FieldFailsExactly(c.fields, o.fields, failure);
    ProductFailsExactly(c, o, failure);
  }

  method FindField(fields: seq<FieldObservation>, name: string) returns (found: Option<FieldObservation>)
    ensures found == FieldOf(fields, name)
  {
    found := None;
    for i := 0 to |fields|
      invariant found == FieldOf(fields[..i], name)
    {
      assert fields[..i + 1][..i] == fields[..i];
      if fields[i].name == name { found := Some(fields[i]); }
    }
    assert fields[..|fields|] == fields;
  }

  lemma NextField(fields: seq<FieldContract>, observed: seq<FieldObservation>, i: nat)
    requires i <= |fields|
    ensures AllFieldFailures(fields[..0], observed) == []
    ensures i < |fields| ==>
              AllFieldFailures(fields[..i + 1], observed)
              == AllFieldFailures(fields[..i], observed)
                 + Named(fields[i].name, FieldFailures(fields[i], FieldOf(observed, fields[i].name)))
  {
    hide FieldFailures, FieldOf, Named;
    if i < |fields| { assert fields[..i + 1][..i] == fields[..i]; }
  }

  /** `evaluate_product`. */
  method EvaluateProduct(c: Contract, o: Observation) returns (failures: seq<Failure>)
    ensures failures == Failures(c, o)
  {
    hide When, FieldFailures, FieldOf, AllFieldFailures;
    failures := When(o.pipelineStatus != "succeeded", PipelineFailed);
    failures := failures + When(o.age > c.maximumAge, Stale);
    failures := failures + When(o.completeness < c.minimumCompleteness, Incomplete);
    failures := failures + When(o.variance > c.maximumVariance, Unreconciled);
    ghost var first := ProductFailures(c, o);
    assert failures == first;
    hide ProductFailures;
    NextField(c.fields, o.fields, 0);
    for i := 0 to |c.fields|
      invariant failures == first + AllFieldFailures(c.fields[..i], o.fields)
    {
      NextField(c.fields, o.fields, i);
      var observed := FindField(o.fields, c.fields[i].name);
      failures := failures + Named(c.fields[i].name, FieldFailures(c.fields[i], observed));
    }
    assert c.fields[..|c.fields|] == c.fields;
  }

  // ---------------------------------------------------------------- a release

  function ObservationOf(observations: seq<Observation>, id: string): Option<Observation> {
    if observations == [] then None
    else if observations[|observations| - 1].id == id then Some(observations[|observations| - 1])
    else ObservationOf(observations[..|observations| - 1], id)
  }

  /** Observation `i` of a product is its last. */
  ghost predicate LastObservation(observations: seq<Observation>, i: int, id: string) {
    0 <= i < |observations| && observations[i].id == id
    && forall j :: i < j < |observations| ==> observations[j].id != id
  }

  lemma {:induction false} ObservationOfIsLast(observations: seq<Observation>, id: string)
    ensures ObservationOf(observations, id).None? ==>
              forall i :: 0 <= i < |observations| ==> observations[i].id != id
    ensures ObservationOf(observations, id).Some? ==>
              exists i :: LastObservation(observations, i, id)
                          && observations[i] == ObservationOf(observations, id).value
  {
    if observations != [] {
      var front, n := observations[..|observations| - 1], |observations| - 1;
      ObservationOfIsLast(front, id);
      assert forall i :: 0 <= i < n ==> front[i] == observations[i];
      if observations[n].id == id {
        assert LastObservation(observations, n, id);
      } else if ObservationOf(front, id).Some? {
        var i :| LastObservation(front, i, id) && front[i] == ObservationOf(front, id).value;
        assert LastObservation(observations, i, id);
      }
    }
  }

  /** A product with the verdict on its contract and what an hour without it costs. */
  datatype Product = Product(id: string, failed: bool, marginPerHour: real)

  function Judged(contracts: seq<Contract>, observations: seq<Observation>): (products: seq<Product>)
    ensures |products| == |contracts|
  {
    seq(|contracts|, i requires 0 <= i < |contracts| => JudgedOne(contracts[i], observations))
  }

  function JudgedOne(c: Contract, observations: seq<Observation>): Product {
    var o := ObservationOf(observations, c.id);
    Product(c.id, o.Some? && Failures(c, o.value) != [], c.marginPerHour)
  }

  datatype Impact = Impact(failed: seq<string>, affected: set<string>, margin: real)

  predicate DistinctIds(contracts: seq<Contract>) {
    forall i, j :: 0 <= i < j < |contracts| ==> contracts[i].id != contracts[j].id
  }

  predicate AllObserved(contracts: seq<Contract>, observations: seq<Observation>) {
    forall i :: 0 <= i < |contracts| ==> ObservationOf(observations, contracts[i].id).Some?
  }

  ghost predicate Affected(products: seq<Product>, edges: seq<Edge>, n: string) {
    exists i :: 0 <= i < |products| && products[i].failed && n != products[i].id && Downstream(edges, products[i].id, n)
  }

  function FailedIds(products: seq<Product>): seq<string> {
    if products == [] then []
    else
      var last := products[|products| - 1];
      FailedIds(products[..|products| - 1]) + if last.failed then [last.id] else []
  }

  function MarginAtRisk(products: seq<Product>): real {
    if products == [] then 0.0
    else
      var last := products[|products| - 1];
      MarginAtRisk(products[..|products| - 1]) + if last.failed then last.marginPerHour else 0.0
  }

  method FindObservation(observations: seq<Observation>, id: string) returns (found: Option<Observation>)
    ensures found == ObservationOf(observations, id)
  {
    found := None;
    for i := 0 to |observations|
      invariant found == ObservationOf(observations[..i], id)
    {
      assert observations[..i + 1][..i] == observations[..i];
      if observations[i].id == id { found := Some(observations[i]); }
    }
    assert observations[..|observations|] == observations;
  }

  lemma OneMoreProduct(products: seq<Product>, p: Product, edges: seq<Edge>, n: string)
    ensures Affected(products + [p], edges, n) <==>
              Affected(products, edges, n) || (p.failed && n != p.id && Downstream(edges, p.id, n))
  {
    hide Downstream;
    var all := products + [p];
    if Affected(products, edges, n) {
      var k :| 0 <= k < |products| && products[k].failed && n != products[k].id && Downstream(edges, products[k].id, n);
      assert all[k] == products[k];
    }
    assert all[|products|] == p;
  }

  /** The contracts their observations do not meet, in order. */
  ghost function Failing(contracts: seq<Contract>, observations: seq<Observation>): seq<Contract> {
    if contracts == [] then []
    else
      var c := contracts[|contracts| - 1];
      var o := ObservationOf(observations, c.id);
      Failing(contracts[..|contracts| - 1], observations) + if o.Some? && !Meets(c, o.value) then [c] else []
  }

  ghost function Margins(contracts: seq<Contract>): real {
    if contracts == [] then 0.0
    else Margins(contracts[..|contracts| - 1]) + contracts[|contracts| - 1].marginPerHour
  }

  ghost function IdsOf(contracts: seq<Contract>): (r: seq<string>)
    ensures |r| == |contracts| && forall i :: 0 <= i < |contracts| ==> r[i] == contracts[i].id
  {
    seq(|contracts|, i requires 0 <= i < |contracts| => contracts[i].id)
  }

  /** A node downstream of a contract that is not met. */
  ghost predicate Reached(failing: seq<Contract>, edges: seq<Edge>, n: string) {
    exists i :: 0 <= i < |failing| && n != failing[i].id && Downstream(edges, failing[i].id, n)
  }

  lemma OneMoreReached(failing: seq<Contract>, c: Contract, edges: seq<Edge>, n: string)
    ensures Reached(failing + [c], edges, n) <==>
              Reached(failing, edges, n) || (n != c.id && Downstream(edges, c.id, n))
  {
    hide Downstream;
    var all := failing + [c];
    assert all[|failing|] == c;
    if i :| 0 <= i < |failing| && n != failing[i].id && Downstream(edges, failing[i].id, n) {
      assert all[i] == failing[i];
    }
  }

  lemma JudgedFails(c: Contract, observations: seq<Observation>)
    ensures var o := ObservationOf(observations, c.id);
            JudgedOne(c, observations).failed <==> o.Some? && !Meets(c, o.value)
  {
    hide Failures, Meets, ObservationOf;
    var o := ObservationOf(observations, c.id);
    if o.Some? { PassesExactly(c, o.value); }
  }

  /** One contract more adds its verdict, and itself if it is not met. */
  lemma OneMoreContract(front: seq<Contract>, c: Contract, observations: seq<Observation>)
    ensures Judged(front + [c], observations) == Judged(front, observations) + [JudgedOne(c, observations)]
    ensures Failing(front + [c], observations)
         == if JudgedOne(c, observations).failed then Failing(front, observations) + [c]
            else Failing(front, observations)
  {
    hide JudgedOne, Meets, ObservationOf;
    JudgedFails(c, observations);
    assert (front + [c])[..|front|] == front;
  }

  lemma ProductsNext(products: seq<Product>, p: Product)
    ensures FailedIds(products + [p]) == if p.failed then FailedIds(products) + [p.id] else FailedIds(products)
    ensures MarginAtRisk(products + [p]) == MarginAtRisk(products) + if p.failed then p.marginPerHour else 0.0
  {
    assert (products + [p])[..|products|] == products;
  }

  lemma FailingNext(failing: seq<Contract>, c: Contract)
    ensures IdsOf(failing + [c]) == IdsOf(failing) + [c.id]
    ensures Margins(failing + [c]) == Margins(failing) + c.marginPerHour
  {
    assert (failing + [c])[..|failing|] == failing;
  }

  lemma NothingReported(observations: seq<Observation>)
    ensures FailedIds(Judged([], observations)) == IdsOf(Failing([], observations))
    ensures MarginAtRisk(Judged([], observations)) == Margins(Failing([], observations))
  {}

  lemma {:induction false} ReportsFailing(contracts: seq<Contract>, observations: seq<Observation>)
    ensures var products := Judged(contracts, observations); var failing := Failing(contracts, observations);
            FailedIds(products) == IdsOf(failing) && MarginAtRisk(products) == Margins(failing)
    decreases |contracts|
  {
    hide *;
    if contracts == [] {
      NothingReported(observations);
    } else {
      var front, c := contracts[..|contracts| - 1], contracts[|contracts| - 1];
      ReportsFailing(front, observations);
      JudgedKeeps(c, observations);
      assert contracts == front + [c];
      OneMoreContract(front, c, observations);
      ProductsNext(Judged(front, observations), JudgedOne(c, observations));
      FailingNext(Failing(front, observations), c);
    }
  }

  lemma JudgedKeeps(c: Contract, observations: seq<Observation>)
    ensures JudgedOne(c, observations).id == c.id && JudgedOne(c, observations).marginPerHour == c.marginPerHour
  {
    hide Failures, ObservationOf;
  }

  lemma {:induction false} ReachesFailing(contracts: seq<Contract>, observations: seq<Observation>, edges: seq<Edge>,
                                          n: string)
    ensures Affected(Judged(contracts, observations), edges, n)
       <==> Reached(Failing(contracts, observations), edges, n)
    decreases |contracts|
  {
    hide JudgedOne, Meets, ObservationOf, Downstream, Affected, Reached;
    if contracts == [] {
      NobodyYet(edges);
      NobodyReached(edges, n);
    } else {
      var front, c := contracts[..|contracts| - 1], contracts[|contracts| - 1];
      ReachesFailing(front, observations, edges, n);
      JudgedKeeps(c, observations);
      assert contracts == front + [c];
      OneMoreContract(front, c, observations);
      OneMoreProduct(Judged(front, observations), JudgedOne(c, observations), edges, n);
      OneMoreReached(Failing(front, observations), c, edges, n);
    }
  }

  lemma NobodyReached(edges: seq<Edge>, n: string)
    ensures !Reached([], edges, n)
  {}

  /** The loop of `evaluate_data_release`. */
  method AssessRelease(contracts: seq<Contract>, observations: seq<Observation>, edges: seq<Edge>)
    returns (r: Result<Impact, ReleaseError>)
    ensures r == Err(NoContracts) <==> contracts == []
    ensures r == Err(DuplicateIds) <==> exists i, j :: 0 <= i < j < |contracts| && contracts[i].id == contracts[j].id
    ensures r == Err(ObservationsMissing) <==>
              contracts != [] && DistinctIds(contracts) && !AllObserved(contracts, observations)
    ensures r.Ok? ==>
              var products := Judged(contracts, observations);
              && r.value.failed == FailedIds(products) && r.value.margin == MarginAtRisk(products)
              && forall n :: n in r.value.affected <==> Affected(products, edges, n)
    ensures r.Ok? ==>
              var failing := Failing(contracts, observations);
              && r.value.failed == IdsOf(failing) && r.value.margin == Margins(failing)
              && forall n :: n in r.value.affected <==> Reached(failing, edges, n)
  {
    hide Downstream, Failures, ObservationOf, Affected, Failing, Margins, IdsOf, Reached;
    if contracts == [] { return Err(NoContracts); }
    if !DistinctIds(contracts) { return Err(DuplicateIds); }
    if !AllObserved(contracts, observations) { return Err(ObservationsMissing); }
    ghost var products := Judged(contracts, observations);
    var failed: seq<string>, affected: set<string>, margin := [], {}, 0.0;
    assert forall n :: !Affected(products[..0], edges, n) by { NobodyYet(edges); }
    for i := 0 to |contracts|
      invariant failed == FailedIds(products[..i]) && margin == MarginAtRisk(products[..i])
      invariant forall n :: n in affected <==> Affected(products[..i], edges, n)
    {
      var contract := contracts[i];
      assert products[..i + 1][..i] == products[..i] && products[..i + 1] == products[..i] + [products[i]];
      var observation := FindObservation(observations, contract.id);
      var failures := EvaluateProduct(contract, observation.value);
      var consumers := DownstreamNodes(contract.id, edges);
      forall n { OneMoreProduct(products[..i], products[i], edges, n); }
      if failures != [] {
        failed := failed + [contract.id];
        affected := affected + set n | n in consumers;
        margin := margin + contract.marginPerHour;
      }
    }
    assert products[..|contracts|] == products;
    ReportsFailing(contracts, observations);
    forall n { ReachesFailing(contracts, observations, edges, n); }
    return Ok(Impact(failed, affected, margin));
  }

  lemma NobodyYet(edges: seq<Edge>)
    ensures forall n :: !Affected([], edges, n)
  {}

  ghost predicate HasFailed(products: seq<Product>, id: string) {
    exists i :: 0 <= i < |products| && products[i].failed && products[i].id == id
  }

  lemma {:induction false} FailedIdsExactly(products: seq<Product>)
    ensures forall id :: id in FailedIds(products) <==> HasFailed(products, id)
  {
    if products != [] {
      var front := products[..|products| - 1];
      FailedIdsExactly(front);
      assert products == front + [products[|products| - 1]];
      forall id ensures id in FailedIds(products) <==> HasFailed(products, id) {
        if i :| 0 <= i < |products| && products[i].failed && products[i].id == id {
          if i < |front| { assert front[i] == products[i]; }
        }
        if i :| 0 <= i < |front| && front[i].failed && front[i].id == id { assert products[i] == front[i]; }
      }
    }
  }

  /** Nothing that failed or is affected feeds a node outside: the reported blast radius is closed
      under the lineage edges. */
  lemma BlastRadiusIsClosed(products: seq<Product>, edges: seq<Edge>, e: Edge)
    requires e in edges
    requires e.source in FailedIds(products) || Affected(products, edges, e.source)
    ensures e.target in FailedIds(products) || Affected(products, edges, e.target)
  {
    FailedIdsExactly(products);
    hide Downstream, FailedIds;
    assert Links(edges, e.source, e.target);
    if e.source in FailedIds(products) {
      var i :| 0 <= i < |products| && products[i].failed && products[i].id == e.source;
      OneEdge(edges, e.source, e.target);
    } else {
      var i :| 0 <= i < |products| && products[i].failed && e.source != products[i].id
               && Downstream(edges, products[i].id, e.source);
      DownstreamThenEdge(edges, products[i].id, e.source, e.target);
    }
  }
}
