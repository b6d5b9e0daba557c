/** Partner orders and draft statements: prices frozen at ordering, one activation, and what the
    statements of consecutive months add up to. */
module PartnerOrders {
  import opened Common
  import opened Calendar
  import opened Money
  import opened TextOrder

  /** Probe targets as parsed numbers. */
  datatype Targets = Targets(minimumSamples: int, minimumSuccessPct: real, maximumLatencyMs: real, maximumTtftMs: real)

  predicate ValidTargets(t: Targets) {
    t.minimumSamples >= 1 && 0.0 < t.minimumSuccessPct <= 100.0 && t.maximumLatencyMs > 0.0 && t.maximumTtftMs > 0.0
  }

  /** A catalog as published: its prices are still text; an identifier, a required text or the targets are
      None when they do not have their form. */
  datatype Catalog = Catalog(sku: Option<string>, model: Option<string>, owner: Option<string>, regions: seq<string>,
                             retailSetup: string, wholesaleSetup: string, retailMonthly: string,
                             wholesaleMonthly: string, targets: Option<Targets>)

  datatype Prices = Prices(retailSetup: nat, wholesaleSetup: nat, retailMonthly: nat, wholesaleMonthly: nat)

  /** What a catalog offers once validated. */
  datatype Sku = Sku(id: string, model: string, owner: string, prices: Prices, targets: Targets)

  datatype OrderError =
    | BadSku | BadModel | BadOwner | NoRegions | BadPrice | WholesaleAboveRetail | BadTargets
    | BadCustomer | BadRegion | RegionNotOffered | UnknownSku | PartnerUnknown | PartnerKnown | ShortToken | IdTaken
    | BadDeployment | NotAwaitingActivation | OrderNotFound

  datatype Request = Request(customer: Option<string>, region: Option<string>, sku: string)

  /** References and an endpoint that is a bare HTTPS origin. */
  datatype Deployment = Deployment(ref: string, contractRef: string, endpoint: string)

  datatype Order = Order(partner: string, customer: string, region: string, sku: Sku, active: bool,
                         activeAt: Option<Stamp>, deployment: Option<Deployment>)

  /** `validate_catalog`, error by error. */
  function ValidateCatalog(c: Catalog): Result<Sku, OrderError> {
    if c.sku.None? then Err(BadSku)
    else if c.model.None? then Err(BadModel)
    else if c.owner.None? then Err(BadOwner)
    else if c.regions == [] then Err(NoRegions)
    else
      var rs, ws := CentsOf(c.retailSetup), CentsOf(c.wholesaleSetup);
      var rm, wm := CentsOf(c.retailMonthly), CentsOf(c.wholesaleMonthly);
      if rs.Err? || ws.Err? || rm.Err? || wm.Err? then Err(BadPrice)
      else if ws.value > rs.value || wm.value > rm.value then Err(WholesaleAboveRetail)
      else if c.targets.None? || !ValidTargets(c.targets.value) then Err(BadTargets)
      else
        Ok(Sku(c.sku.value, c.model.value, c.owner.value, Prices(rs.value, ws.value, rm.value, wm.value),
               c.targets.value))
  }

  // ---------------------------------------------------------------- the tables

  datatype Book = Book(partners: set<string>, orders: map<string, Order>)

  /** `create_order`; `id` is the generated order id. */
  function Create(b: Book, c: Catalog, partner: string, r: Request, id: string): Result<Order, OrderError> {
    var sku := ValidateCatalog(c);
    if sku.Err? then Err(sku.error)
    else if r.customer.None? then Err(BadCustomer)
    else if r.region.None? then Err(BadRegion)
    else if r.region.value !in c.regions then Err(RegionNotOffered)
    else if r.sku != sku.value.id then Err(UnknownSku)
    else if partner !in b.partners then Err(PartnerUnknown)
    else if id in b.orders then Err(IdTaken)
    else Ok(Order(partner, r.customer.value, r.region.value, sku.value, false, None, None))
  }

  /** `activate_order`; the deployment is None when a reference is blank or the endpoint is refused. */
  function Activate(b: Book, id: string, at: Stamp, deployment: Option<Deployment>): Result<Order, OrderError> {
    if deployment.None? then Err(BadDeployment)
    else if id !in b.orders || b.orders[id].active then Err(NotAwaitingActivation)
    else Ok(b.orders[id].(active := true, activeAt := Some(at), deployment := deployment))
  }

  const TOKEN_LENGTH := 32

  /** One call to the service; publishing a catalog changes nothing here. */
  datatype Call =
    | Register(partner: string, token: string)
    | Ordering(catalog: Catalog, partner: string, request: Request, id: string)
    | Activation(id: string, at: Stamp, deployment: Option<Deployment>)

  function After(b: Book, id: string, r: Result<Order, OrderError>): Book {
    if r.Ok? then b.(orders := b.orders[id := r.value]) else b
  }

  function Step(b: Book, call: Call): Book {
    match call
    case Register(partner, token) => if |token| < TOKEN_LENGTH then b else b.(partners := b.partners + {partner})
    case Ordering(catalog, partner, request, id) => After(b, id, Create(b, catalog, partner, request, id))
    case Activation(id, at, deployment) => After(b, id, Activate(b, id, at, deployment))
  }

  function Run(b: Book, calls: seq<Call>): Book {
    if calls == [] then b else Step(Run(b, calls[..|calls| - 1]), calls[|calls| - 1])
  }

  class OrderTable {
    var partners: set<string>
    var orders: map<string, Order>

    function View(): Book
      reads this
    {
      Book(partners, orders)
    }

    constructor ()
      ensures View() == Book({}, map[])
    {
      partners, orders := {}, map[];
    }

    method RegisterPartner(partner: string, token: string) returns (r: Result<(), OrderError>)
      modifies this`partners
      ensures View() == Step(old(View()), Register(partner, token))
      ensures r.Ok? <==> |token| >= 32 && partner !in old(partners)
      ensures partners == old(partners) + if r.Ok? then {partner} else {}
    {
      if |token| < TOKEN_LENGTH { return Err(ShortToken); }
      if partner in partners { return Err(PartnerKnown); }
      partners := partners + {partner};
      return Ok(());
    }

    method CreateOrder(c: Catalog, partner: string, r: Request, id: string) returns (created: Result<Order, OrderError>)
      modifies this`orders
      ensures View() == Step(old(View()), Ordering(c, partner, r, id))
      ensures created == Create(old(View()), c, partner, r, id)
      ensures orders == if created.Ok? then old(orders)[id := created.value] else old(orders)
    {
      var valid := ValidateCatalog(c);
      if valid.Err? { return Err(valid.error); }
      if r.customer.None? { return Err(BadCustomer); }
      if r.region.None? { return Err(BadRegion); }
      if r.region.value !in c.regions { return Err(RegionNotOffered); }
      if r.sku != valid.value.id { return Err(UnknownSku); }
      if partner !in partners { return Err(PartnerUnknown); }
      if id in orders { return Err(IdTaken); }
      var order := Order(partner, r.customer.value, r.region.value, valid.value, false, None, None);
      orders := orders[id := order];
      return Ok(order);
    }

    /** The conditional update: it touches one row awaiting activation or none. */
    method ActivateOrder(id: string, at: Stamp, deployment: Option<Deployment>)
        returns (activated: Result<Order, OrderError>)
      modifies this`orders
      ensures View() == Step(old(View()), Activation(id, at, deployment))
      ensures activated.Ok? <==> deployment.Some? && id in old(orders) && !old(orders)[id].active
      ensures activated.Ok? ==>
                && activated.value
                   == old(orders)[id].(active := true, activeAt := Some(at), deployment := deployment)
                && orders == old(orders)[id := activated.value]
      ensures activated.Err? ==> orders == old(orders)
    {
      if deployment.None? { return Err(BadDeployment); }
      if id in orders && !orders[id].active {
        orders := orders[id := orders[id].(active := true, activeAt := Some(at), deployment := deployment)];
        return Ok(orders[id]);
      }
      return Err(NotAwaitingActivation);
    }
  }

  // ---------------------------------------------------------------- what is accepted

  /** All four prices are money. */
  ghost predicate Priced(c: Catalog) {
    && CentsOf(c.retailSetup).Ok? && CentsOf(c.wholesaleSetup).Ok?
    && CentsOf(c.retailMonthly).Ok? && CentsOf(c.wholesaleMonthly).Ok?
  }

  /** No wholesale price is above its retail price. */
  ghost predicate LeavesSpread(c: Catalog)
    requires Priced(c)
  {
    && CentsOf(c.wholesaleSetup).value <= CentsOf(c.retailSetup).value
    && CentsOf(c.wholesaleMonthly).value <= CentsOf(c.retailMonthly).value
  }

  ghost predicate Named(c: Catalog) { c.sku.Some? && c.model.Some? && c.owner.Some? && c.regions != [] }

  /** A catalog is valid exactly when it is named, priced with a spread and has sound targets; what it offers is
      each of its own entries. */
  lemma CatalogExactly(c: Catalog)
    ensures var r := ValidateCatalog(c);
            && (r.Ok? <==>
                  && Named(c) && Priced(c) && LeavesSpread(c) && c.targets.Some?
                  && c.targets.value.minimumSamples >= 1 && 0.0 < c.targets.value.minimumSuccessPct <= 100.0
                  && c.targets.value.maximumLatencyMs > 0.0 && c.targets.value.maximumTtftMs > 0.0)
            && (r == Err(BadPrice) <==> Named(c) && !Priced(c))
            && (r == Err(WholesaleAboveRetail) <==> Named(c) && Priced(c) && !LeavesSpread(c))
            && (r == Err(BadSku) <==> c.sku.None?)
            && (r == Err(BadModel) <==> c.sku.Some? && c.model.None?)
            && (r == Err(BadOwner) <==> c.sku.Some? && c.model.Some? && c.owner.None?)
            && (r == Err(NoRegions) <==> c.sku.Some? && c.model.Some? && c.owner.Some? && c.regions == [])
            && (r.Ok? ==>
                  && r.value.id == c.sku.value && r.value.model == c.model.value && r.value.owner == c.owner.value
                  && r.value.targets == c.targets.value
                  && r.value.prices.retailSetup == CentsOf(c.retailSetup).value
                  && r.value.prices.wholesaleSetup == CentsOf(c.wholesaleSetup).value
                  && r.value.prices.retailMonthly == CentsOf(c.retailMonthly).value
                  && r.value.prices.wholesaleMonthly == CentsOf(c.wholesaleMonthly).value)
  {
    hide CentsOf;
  }

  /** An order is taken exactly from a valid catalog, by a registered partner, for a region and the product the
      catalog offers, under a new id; it starts inactive. */
  lemma CreateExactly(b: Book, c: Catalog, partner: string, r: Request, id: string)
    ensures var o := Create(b, c, partner, r, id); var valid := ValidateCatalog(c);
            var offered := valid.Ok? && r.customer.Some? && r.region.Some? && r.region.value in c.regions;
            && (valid.Err? ==> o == Err(valid.error))
            && (o.Ok? <==> offered && Some(r.sku) == c.sku && partner in b.partners && id !in b.orders)
            && (valid.Ok? ==>
                  && (o == Err(RegionNotOffered) <==>
                        r.customer.Some? && r.region.Some? && r.region.value !in c.regions)
                  && (o == Err(UnknownSku) <==> offered && Some(r.sku) != c.sku)
                  && (o == Err(PartnerUnknown) <==> offered && Some(r.sku) == c.sku && partner !in b.partners))
            && (o.Ok? ==>
                  && o.value.partner == partner && o.value.customer == r.customer.value
                  && o.value.region == r.region.value && Ok(o.value.sku) == valid
                  && !o.value.active && o.value.activeAt.None? && o.value.deployment.None?)
  {
    CatalogExactly(c);
    hide ValidateCatalog, Priced, LeavesSpread;
  }

  // ---------------------------------------------------------------- every run

  predicate SoundPrices(p: Prices) { p.wholesaleSetup <= p.retailSetup && p.wholesaleMonthly <= p.retailMonthly }

  ghost predicate SoundOrder(o: Order) {
    && (o.active <==> o.activeAt.Some?)
    && SoundPrices(o.sku.prices)
  }

  ghost predicate Sound(b: Book) { forall id :: id in b.orders ==> SoundOrder(b.orders[id]) }

  /** What may become of an order: nothing, or its one activation. */
  ghost predicate Continues(o: Order, p: Order) {
    p == o || (!o.active && p.active && p == o.(active := true, activeAt := p.activeAt, deployment := p.deployment))
  }

  ghost predicate Extends(b: Book, c: Book) {
    forall id :: id in b.orders ==> id in c.orders && Continues(b.orders[id], c.orders[id])
  }

  lemma {:induction false} RunKeeps(b: Book, calls: seq<Call>)
    requires Sound(b)
    ensures Sound(Run(b, calls)) && Extends(b, Run(b, calls))
  {
    hide Step, Sound;
    if calls != [] {
      RunKeeps(b, calls[..|calls| - 1]);
      StepKeeps(Run(b, calls[..|calls| - 1]), calls[|calls| - 1]);
    }
  }

  lemma StepKeeps(b: Book, call: Call)
    requires Sound(b)
    ensures Sound(Step(b, call)) && Extends(b, Step(b, call))
  {
    hide CentsOf, ValidTargets, Create, Activate;
    match call
    case Register(_, _) =>
    case Ordering(catalog, partner, request, id) => CreatesSound(b, catalog, partner, request, id);
    case Activation(id, at, deployment) => ActivatesSound(b, id, at, deployment);
  }

  lemma CreatesSound(b: Book, c: Catalog, partner: string, r: Request, id: string)
    ensures Create(b, c, partner, r, id).Ok? ==> id !in b.orders && SoundOrder(Create(b, c, partner, r, id).value)
  {
    hide CentsOf, ValidTargets;
  }

  lemma ActivatesSound(b: Book, id: string, at: Stamp, deployment: Option<Deployment>)
    requires Sound(b)
    ensures var o := Activate(b, id, at, deployment);
            o.Ok? ==> id in b.orders && SoundOrder(o.value) && Continues(b.orders[id], o.value)
  {}

  function Activations(b: Book, calls: seq<Call>, id: string): nat {
    if calls == [] then 0
    else
      var front, last := calls[..|calls| - 1], calls[|calls| - 1];
      Activations(b, front, id)
      + if last.Activation? && last.id == id && Activate(Run(b, front), id, last.at, last.deployment).Ok? then 1 else 0
  }

  /** In any run an order is activated at most once, and never if it was active before; it is active at
      the end exactly when it was active or has been activated. */
  lemma {:induction false} ActivatedAtMostOnce(b: Book, calls: seq<Call>, id: string)
    requires id in b.orders
    ensures id in Run(b, calls).orders
    ensures Activations(b, calls, id) == if !b.orders[id].active && Run(b, calls).orders[id].active then 1 else 0
    ensures b.orders[id].active ==> Run(b, calls).orders[id] == b.orders[id]
  {
    if calls != [] { ActivatedAtMostOnce(b, calls[..|calls| - 1], id); }
  }

  /** An order keeps the whole offer of the catalog it was ordered from, prices and targets, in every
      later state. */
  lemma OfferIsFrozen(b: Book, c: Catalog, partner: string, r: Request, id: string, later: seq<Call>)
    requires Sound(b) && Create(b, c, partner, r, id).Ok?
    ensures var after := Run(Step(b, Ordering(c, partner, r, id)), later);
            && Sound(after) && id in after.orders && after.orders[id].partner == partner
            && Ok(after.orders[id].sku) == ValidateCatalog(c)
  {
    hide CentsOf, ValidTargets;
    RunKeeps(Step(b, Ordering(c, partner, r, id)), later);
  }

  // ---------------------------------------------------------------- statements

  datatype Statement = Statement(retail: string, wholesale: string, spread: string)

  /** A stored price as the statement reads it: printed as dollars by `get_order`, parsed back. */
  function ReadBack(cents: nat): (r: nat)
    ensures r == cents
  {
    CentsUndoUsd(cents);
    CentsOf(Usd(cents)).value
  }

  predicate ActiveBy(o: Order, month: Month)
    requires ValidMonth(month) && (o.activeAt.Some? ==> ValidStamp(o.activeAt.value))
  {
    o.active && o.activeAt.Some? && TextLe(StampText(o.activeAt.value)[..7], MonthText(month))
  }

  predicate SetupIn(o: Order, month: Month)
    requires ValidMonth(month) && (o.activeAt.Some? ==> ValidStamp(o.activeAt.value))
  {
    ActiveBy(o, month) && StampText(o.activeAt.value)[..7] == MonthText(month)
  }

  function Charge(o: Order, month: Month, monthly: nat, setup: nat): nat
    requires ValidMonth(month) && (o.activeAt.Some? ==> ValidStamp(o.activeAt.value))
  {
    if ActiveBy(o, month) then monthly + (if SetupIn(o, month) then setup else 0) else 0
  }

  function Retail(o: Order, month: Month): nat
    requires ValidMonth(month) && (o.activeAt.Some? ==> ValidStamp(o.activeAt.value))
  {
    Charge(o, month, ReadBack(o.sku.prices.retailMonthly), ReadBack(o.sku.prices.retailSetup))
  }

  function Wholesale(o: Order, month: Month): nat
    requires ValidMonth(month) && (o.activeAt.Some? ==> ValidStamp(o.activeAt.value))
  {
    Charge(o, month, ReadBack(o.sku.prices.wholesaleMonthly), ReadBack(o.sku.prices.wholesaleSetup))
  }

  /** `statement`: the catalog at the time is only checked. */
  function StatementOf(b: Book, c: Catalog, partner: string, id: string, month: Month): Result<Statement, OrderError>
    requires ValidMonth(month)
    requires id in b.orders && b.orders[id].activeAt.Some? ==> ValidStamp(b.orders[id].activeAt.value)
  {
    var prices := ValidateCatalog(c);
    if prices.Err? then Err(prices.error)
    else if id !in b.orders || b.orders[id].partner != partner then Err(OrderNotFound)
    else
      var retail, wholesale := Retail(b.orders[id], month), Wholesale(b.orders[id], month);
      Ok(Statement(Usd(retail), Usd(wholesale), Usd(retail - wholesale)))
  }

  /** Months before activation are free, the month of activation carries the setup price, and each
      later month the monthly price. */
  lemma ChargeIs(o: Order, month: Month, monthly: nat, setup: nat)
    requires ValidMonth(month) && o.active && o.activeAt.Some? && ValidStamp(o.activeAt.value)
    ensures var a := Index(o.activeAt.value.month);
            Charge(o, month, monthly, setup)
            == (if a <= Index(month) then monthly else 0) + (if a == Index(month) then setup else 0)
  {
    hide MonthText, TextLe;
    var a := o.activeAt.value;
    assert StampText(a)[..7] == MonthText(a.month);
    MonthOrder(a.month, month);
  }

  /** The statements of the months from `start` to before `end`, added up. */
  function ChargedOver(o: Order, monthly: nat, setup: nat, start: nat, end: nat): nat
    requires start <= end <= 120000 && (o.activeAt.Some? ==> ValidStamp(o.activeAt.value))
  {
    if start == end then 0
    else ChargedOver(o, monthly, setup, start, end - 1) + Charge(o, MonthAt(end - 1), monthly, setup)
  }

  /** Over consecutive months the statements add up to the monthly price for each active month and the
      setup price once, when the month of activation is among them. */
  lemma {:induction false} StatementsAddUp(o: Order, monthly: nat, setup: nat, start: nat, end: nat)
    requires start <= end <= 120000 && o.active && o.activeAt.Some? && ValidStamp(o.activeAt.value)
    ensures var a := Index(o.activeAt.value.month);
            ChargedOver(o, monthly, setup, start, end)
            == monthly * MonthsFrom(a, start, end) + if start <= a < end then setup else 0
    decreases end
  {
    hide Charge, MonthsFrom, Index;
    var a := Index(o.activeAt.value.month);
    MonthsNext(a, start, end);
    if start < end {
      StatementsAddUp(o, monthly, setup, start, end - 1);
      ChargeIs(o, MonthAt(end - 1), monthly, setup);
      OneMore(monthly, MonthsFrom(a, start, end - 1), a <= end - 1);
    }
  }

  lemma OneMore(monthly: nat, months: nat, more: bool)
    ensures monthly * (months + if more then 1 else 0) == monthly * months + if more then monthly else 0
  {}

  /** The three lines of a statement. */
  datatype Line = RetailLine | WholesaleLine | SpreadLine

  function Printed(s: Statement, line: Line): string {
    match line
    case RetailLine => s.retail
    case WholesaleLine => s.wholesale
    case SpreadLine => s.spread
  }

  function MonthlyOf(p: Prices, line: Line): nat
    requires SoundPrices(p)
  {
    match line
    case RetailLine => p.retailMonthly
    case WholesaleLine => p.wholesaleMonthly
    case SpreadLine => p.retailMonthly - p.wholesaleMonthly
  }

  function SetupOf(p: Prices, line: Line): nat
    requires SoundPrices(p)
  {
    match line
    case RetailLine => p.retailSetup
    case WholesaleLine => p.wholesaleSetup
    case SpreadLine => p.retailSetup - p.wholesaleSetup
  }

  predicate Datable(b: Book, id: string) {
    id in b.orders && b.orders[id].activeAt.Some? ==> ValidStamp(b.orders[id].activeAt.value)
  }

  /** A statement is drawn for the partner's own order under any valid catalog. */
  lemma StatementExactly(b: Book, c: Catalog, partner: string, id: string, month: Month)
    requires ValidMonth(month) && Datable(b, id)
    ensures var s := StatementOf(b, c, partner, id, month);
            && (s.Ok? <==> ValidateCatalog(c).Ok? && id in b.orders && b.orders[id].partner == partner)
            && (ValidateCatalog(c).Err? ==> s == Err(ValidateCatalog(c).error))
            && (ValidateCatalog(c).Ok? && s.Err? ==> s == Err(OrderNotFound))
  {
    hide ValidateCatalog, Retail, Wholesale, Usd;
  }

  /** Every line of a statement of a sound order reads back as the charge of its own prices. */
  lemma LinesReadBack(b: Book, c: Catalog, partner: string, id: string, month: Month, line: Line)
    requires ValidMonth(month) && Sound(b) && Datable(b, id) && StatementOf(b, c, partner, id, month).Ok?
    ensures var o, s := b.orders[id], StatementOf(b, c, partner, id, month).value;
            var p := o.sku.prices;
            && SoundPrices(p)
            && CentsOf(Printed(s, line)) == Ok(Charge(o, month, MonthlyOf(p, line), SetupOf(p, line)))
  {
    hide CentsOf, Usd, ActiveBy, SetupIn, ValidateCatalog;
    var o := b.orders[id];
    assert SoundOrder(o);
    CentsUndoUsd(Retail(o, month));
    CentsUndoUsd(Wholesale(o, month));
    CentsUndoUsd(Retail(o, month) - Wholesale(o, month));
  }

  /** The spread of a statement of a sound order is never negative, and closes the sum. */
  lemma SpreadIsMoney(b: Book, c: Catalog, partner: string, id: string, month: Month)
    requires ValidMonth(month) && Sound(b) && Datable(b, id) && StatementOf(b, c, partner, id, month).Ok?
    ensures var s := StatementOf(b, c, partner, id, month).value;
            && CentsOf(s.retail).Ok? && CentsOf(s.wholesale).Ok? && CentsOf(s.spread).Ok?
            && CentsOf(s.retail).value == CentsOf(s.wholesale).value + CentsOf(s.spread).value
  {
    hide CentsOf, StatementOf, ActiveBy, SetupIn, Sound;
    LinesReadBack(b, c, partner, id, month, RetailLine);
    LinesReadBack(b, c, partner, id, month, WholesaleLine);
    LinesReadBack(b, c, partner, id, month, SpreadLine);
  }

  /** What is read off one line of a statement. */
  function LineCents(b: Book, c: Catalog, partner: string, id: string, month: Month, line: Line): nat
    requires ValidMonth(month) && Datable(b, id)
  {
    var s := StatementOf(b, c, partner, id, month);
    if s.Ok? && CentsOf(Printed(s.value, line)).Ok? then CentsOf(Printed(s.value, line)).value else 0
  }

  function LineOver(b: Book, c: Catalog, partner: string, id: string, line: Line, start: nat, end: nat): nat
    requires start <= end <= 120000 && Datable(b, id)
  {
    if start == end then 0
    else LineOver(b, c, partner, id, line, start, end - 1) + LineCents(b, c, partner, id, MonthAt(end - 1), line)
  }

  lemma {:induction false} LinesAddUp(b: Book, c: Catalog, partner: string, id: string, line: Line, start: nat,
                                      end: nat)
    requires start <= end <= 120000 && Sound(b) && Datable(b, id)
    requires id in b.orders && b.orders[id].partner == partner && ValidateCatalog(c).Ok?
    ensures var o := b.orders[id];
            SoundPrices(o.sku.prices)
            && LineOver(b, c, partner, id, line, start, end)
               == ChargedOver(o, MonthlyOf(o.sku.prices, line), SetupOf(o.sku.prices, line), start, end)
    decreases end
  {
    hide Charge, ValidateCatalog, CentsOf, Usd, MonthlyOf, SetupOf, Printed;
    assert SoundOrder(b.orders[id]);
    if start < end {
      LinesAddUp(b, c, partner, id, line, start, end - 1);
      LinesReadBack(b, c, partner, id, MonthAt(end - 1), line);
    }
  }

  /** The line's part of a pair of prices. */
  ghost function PartOf(line: Line, retail: nat, wholesale: nat): int {
    match line
    case RetailLine => retail
    case WholesaleLine => wholesale
    case SpreadLine => retail - wholesale
  }

  lemma LinesOf(p: Prices, line: Line)
    ensures SoundPrices(p) ==>
              && MonthlyOf(p, line) == PartOf(line, p.retailMonthly, p.wholesaleMonthly)
              && SetupOf(p, line) == PartOf(line, p.retailSetup, p.wholesaleSetup)
  {}

  /** The life of an order as its parties see it: ordered from catalog `c`, followed by any calls, and
      activated along the way, each line of its statements over any consecutive months, printed under any
      later valid catalog `d`, adds up to the prices of `c` for the active months, with setup once. */
  lemma OrderedPricesAreCharged(b: Book, c: Catalog, d: Catalog, partner: string, r: Request, id: string,
                                later: seq<Call>, line: Line, start: nat, end: nat)
    requires Sound(b) && Create(b, c, partner, r, id).Ok? && ValidateCatalog(d).Ok? && start <= end <= 120000
    requires var after := Run(Step(b, Ordering(c, partner, r, id)), later);
             && id in after.orders && after.orders[id].active
             && after.orders[id].activeAt.Some? && ValidStamp(after.orders[id].activeAt.value)
    ensures var after := Run(Step(b, Ordering(c, partner, r, id)), later);
            var a := Index(after.orders[id].activeAt.value.month);
            && Priced(c)
            && LineOver(after, d, partner, id, line, start, end)
               == PartOf(line, CentsOf(c.retailMonthly).value, CentsOf(c.wholesaleMonthly).value)
                  * MonthsFrom(a, start, end)
                  + if start <= a < end
                    then PartOf(line, CentsOf(c.retailSetup).value, CentsOf(c.wholesaleSetup).value) else 0
  {
    CatalogExactly(c);
    LinesOf(ValidateCatalog(c).value.prices, line);
    hide CentsOf, ChargedOver, LineOver, MonthsFrom, Run, MonthlyOf, SetupOf, Sound;
    var after := Run(Step(b, Ordering(c, partner, r, id)), later);
    OfferIsFrozen(b, c, partner, r, id, later);
    var o := after.orders[id];
    LinesAddUp(after, d, partner, id, line, start, end);
    StatementsAddUp(o, MonthlyOf(o.sku.prices, line), SetupOf(o.sku.prices, line), start, end);
  }
}
