/** The idempotent provisioning steps of scripts/stripe-billing-setup.py over the state of the
    payment provider. A step that raises leaves what it had already changed. */
module Provisioning {
  import opened Wrappers
  import opened PriceSheet

  type Id = nat

  // ----- The provider's objects

  datatype Mapping = Mapping(formula: Option<string>, customerType: Option<string>, customerKey: Option<string>,
                             valueKey: Option<string>)

  datatype Meter = Meter(id: Id, eventName: string, active: bool, mapping: Mapping)

  datatype Terms = Terms(currency: string, kind: string, interval: string, usage: string, meter: Option<Id>,
                         cents: Option<real>)

  datatype Price = Price(id: Id, lookupKey: string, active: bool, terms: Terms, taxBehavior: string,
                         product: Option<Id>)

  /** `products` gives each product's tax code; `meters` is in listing order. */
  datatype Catalog = Catalog(meters: seq<Meter>, prices: seq<Price>, products: map<Id, string>, nextId: Id)

  /** The operator's tax arguments; empty text stands for an absent one. */
  datatype Tax = Tax(code: string, behavior: string)

  // ----- Meters

  function StandardMapping(): Mapping {
    Mapping(Some("sum"), Some("by_id"), Some("stripe_customer_id"), Some("value"))
  }

  predicate IsUnsetOr(value: Option<string>, wanted: Option<string>) {
    value.None? || value == wanted
  }

  predicate IsCompatible(m: Mapping) {
    var s := StandardMapping();
    && IsUnsetOr(m.formula, s.formula)
    && IsUnsetOr(m.customerType, s.customerType)
    && IsUnsetOr(m.customerKey, s.customerKey)
    && IsUnsetOr(m.valueKey, s.valueKey)
  }

  /** The listing as a dictionary by event name: of several meters the last one listed stays. */
  function ByName(meters: seq<Meter>): map<string, Meter> {
    if meters == [] then map[]
    else
      var last := meters[|meters| - 1];
      ByName(meters[..|meters| - 1])[last.eventName := last]
  }

  function WithStatus(m: Meter, id: Id, active: bool): Meter {
    if m.id == id then m.(active := active) else m
  }

  /** The provider's `reactivate` and `deactivate`. */
  function SetStatus(meters: seq<Meter>, id: Id, active: bool): (r: seq<Meter>)
    ensures |r| == |meters| && forall i :: 0 <= i < |meters| ==> r[i] == WithStatus(meters[i], id, active)
  {
    seq(|meters|, i requires 0 <= i < |meters| => WithStatus(meters[i], id, active))
  }

  /** The provider and the run's dictionary of meters; `ok` is false once a step has raised. */
  datatype Run = Run(catalog: Catalog, known: map<string, Meter>, ok: bool)

  function EnsureMeter(run: Run, event: string): Run {
    var catalog := run.catalog;
    if event in run.known then
      var meter := run.known[event];
      if !IsCompatible(meter.mapping) then run.(ok := false)
      else if meter.active then run
      else
        Run(catalog.(meters := SetStatus(catalog.meters, meter.id, true)),
            run.known[event := meter.(active := true)], true)
    else
      var meter := Meter(catalog.nextId, event, true, StandardMapping());
      Run(catalog.(meters := [meter] + catalog.meters, nextId := catalog.nextId + 1), run.known[event := meter], true)
  }

  // ----- Prices

  /** The active prices with a lookup key. */
  function ActivePrices(prices: seq<Price>, key: string): seq<Price> {
    if prices == [] then []
    else (if prices[0].active && prices[0].lookupKey == key then [prices[0]] else []) + ActivePrices(prices[1..], key)
  }

  function WithBehavior(p: Price, id: Id, behavior: string): Price {
    if p.id == id then p.(taxBehavior := behavior) else p
  }

  function SetBehavior(prices: seq<Price>, id: Id, behavior: string): (r: seq<Price>)
    ensures |r| == |prices| && forall i :: 0 <= i < |prices| ==> r[i] == WithBehavior(prices[i], id, behavior)
  {
    seq(|prices|, i requires 0 <= i < |prices| => WithBehavior(prices[i], id, behavior))
  }

  function WantedTerms(meter: Id, cents: real): Terms {
    Terms("usd", "recurring", "month", "metered", Some(meter), Some(cents))
  }

  datatype Attempt<S> = Attempt(state: S, ok: bool)

  function EnsureProductTax(catalog: Catalog, product: Option<Id>, code: string): Attempt<Catalog> {
    if product.None? || product.value !in catalog.products then Attempt(catalog, false)
    else if catalog.products[product.value] == code then Attempt(catalog, true)
    else Attempt(catalog.(products := catalog.products[product.value := code]), true)
  }

  /** The tax part of an existing price. */
  function EnsureTax(catalog: Catalog, price: Price, tax: Tax): Attempt<Catalog> {
    if tax.behavior == "" then Attempt(catalog, true)
    else if price.taxBehavior == "unspecified" then
      EnsureProductTax(catalog.(prices := SetBehavior(catalog.prices, price.id, tax.behavior)), price.product, tax.code)
    else if price.taxBehavior != tax.behavior then Attempt(catalog, false)
    else EnsureProductTax(catalog, price.product, tax.code)
  }

  function CreatePrice(catalog: Catalog, event: string, cents: real, meter: Id, tax: Tax): Catalog {
    var taxed := tax.behavior != "";
    var product := catalog.nextId;
    var behavior, code := if taxed then tax.behavior else "unspecified", if taxed then tax.code else "";
    var price := Price(product + 1, event, true, WantedTerms(meter, cents), behavior, Some(product));
    catalog.(prices := [price] + catalog.prices,
             products := catalog.products[product := code],
             nextId := product + 2)
  }

  function EnsurePrice(catalog: Catalog, event: string, cents: real, meter: Id, tax: Tax): Attempt<Catalog> {
    var existing := ActivePrices(catalog.prices, event);
    if |existing| > 1 then Attempt(catalog, false)
    else if existing == [] then Attempt(CreatePrice(catalog, event, cents, meter, tax), true)
    else if existing[0].terms != WantedTerms(meter, cents) then Attempt(catalog, false)
    else EnsureTax(catalog, existing[0], tax)
  }

  // ----- The priced dimensions, then the superseded meters

  function EnsureDimension(run: Run, d: Dimension, tax: Tax): Run {
    var metered := EnsureMeter(run, d.eventName);
    if !metered.ok then metered
    else
      var priced := EnsurePrice(metered.catalog, d.eventName, d.cents, MeterOf(metered.known, d.eventName), tax);
      metered.(catalog := priced.state, ok := priced.ok)
  }

  function MeterOf(known: map<string, Meter>, event: string): Id {
    if event in known then known[event].id else 0
  }

  /** The loop over the first `n` dimensions; it stops where a step raises. */
  function EnsureAll(run: Run, dims: seq<Dimension>, n: nat, tax: Tax): Run
    requires n <= |dims|
  {
    if n == 0 then run
    else
      var before := EnsureAll(run, dims, n - 1, tax);
      if before.ok then EnsureDimension(before, dims[n - 1], tax) else before
  }

  function Retire(catalog: Catalog, known: map<string, Meter>, name: string): Catalog {
    if name in known && known[name].active then catalog.(meters := SetStatus(catalog.meters, known[name].id, false))
    else catalog
  }

  function RetireAll(catalog: Catalog, known: map<string, Meter>, names: seq<string>, n: nat): Catalog
    requires n <= |names|
  {
    if n == 0 then catalog else Retire(RetireAll(catalog, known, names, n - 1), known, names[n - 1])
  }

  // ----- Coupon, portal and webhook endpoint

  datatype Coupon = Coupon(valid: bool, percentOff: Option<real>, duration: string)

  const COMP_COUPON_ID := "bex-comp-100"

  predicate IsComp(c: Coupon) {
    c.valid && c.percentOff == Some(100.0) && c.duration == "forever"
  }

  function EnsureCompCoupon(coupons: map<string, Coupon>): Attempt<map<string, Coupon>> {
    if COMP_COUPON_ID in coupons then Attempt(coupons, IsComp(coupons[COMP_COUPON_ID]))
    else Attempt(coupons[COMP_COUPON_ID := Coupon(true, Some(100.0), "forever")], true)
  }

  /** An operator's URL argument, absent, refused by the script's own syntax check, or usable. */
  datatype Url = NoUrl | BadUrl | Url(text: string)

  /** A portal configuration: whether it carries the script's tag, and the return URL that the
      script's settings were last written with, if they were. */
  datatype Portal = Portal(tagged: bool, returnUrl: Option<string>)

  function Tagged(portals: seq<Portal>): nat {
    if portals == [] then 0 else (if portals[0].tagged then 1 else 0) + Tagged(portals[1..])
  }

  function Overwrite(portals: seq<Portal>, url: string): (r: seq<Portal>)
    ensures |r| == |portals|
    ensures forall i :: 0 <= i < |portals| ==> r[i] == if portals[i].tagged then Portal(true, Some(url)) else portals[i]
  {
    seq(|portals|, i requires 0 <= i < |portals| => if portals[i].tagged then Portal(true, Some(url)) else portals[i])
  }

  function EnsurePortal(portals: seq<Portal>, url: Url): Attempt<seq<Portal>> {
    match url
    case NoUrl => Attempt(portals, true)
    case BadUrl => Attempt(portals, false)
    case Url(text) =>
      if Tagged(portals) > 1 then Attempt(portals, false)
      else if Tagged(portals) == 1 then Attempt(Overwrite(portals, text), true)
      else Attempt([Portal(true, Some(text))] + portals, true)
  }

  datatype Endpoint = Endpoint(url: string, enabled: bool, version: string, events: seq<string>)

  const WEBHOOK_API_VERSION := "2026-06-24.dahlia"

  function WebhookEvents(): seq<string> {
    ["checkout.session.completed", "invoice.payment_failed", "invoice.payment_action_required",
     "invoice.payment_succeeded", "invoice.paid", "customer.subscription.created",
     "customer.subscription.updated", "customer.subscription.deleted", "customer.subscription.paused",
     "customer.subscription.resumed", "customer.updated", "charge.dispute.created",
     "charge.dispute.closed", "invoice.voided", "invoice.marked_uncollectible", "invoice.created"]
  }

  function Targets(endpoints: seq<Endpoint>, url: string): set<nat> {
    set i | 0 <= i < |endpoints| && endpoints[i].url == url && endpoints[i].enabled
  }

  function Elements(s: seq<string>): set<string> {
    set x | x in s
  }

  /** The first listed endpoint that targets the URL. */
  function Target(endpoints: seq<Endpoint>, url: string): (i: nat)
    requires Targets(endpoints, url) != {}
    ensures i in Targets(endpoints, url)
    decreases |endpoints|
  {
    if endpoints[0].url == url && endpoints[0].enabled then 0
    else
      assert forall i :: i in Targets(endpoints, url) ==> i > 0 && i - 1 in Targets(endpoints[1..], url);
      1 + Target(endpoints[1..], url)
  }

  function EnsureWebhook(endpoints: seq<Endpoint>, url: Url, addMissing: bool): Attempt<seq<Endpoint>> {
    match url
    case NoUrl => Attempt(endpoints, true)
    case BadUrl => Attempt(endpoints, false)
    case Url(text) =>
      var targets := Targets(endpoints, text);
      if |targets| > 1 then Attempt(endpoints, false)
      else if targets == {} then
        Attempt([Endpoint(text, true, WEBHOOK_API_VERSION, WebhookEvents())] + endpoints, true)
      else
        var i := Target(endpoints, text);
        var e := endpoints[i];
        if e.version != WEBHOOK_API_VERSION then Attempt(endpoints, false)
        else if addMissing && Elements(e.events) < Elements(WebhookEvents()) then
          Attempt(endpoints[i := e.(events := WebhookEvents())], true)
        else Attempt(endpoints, multiset(e.events) == multiset(WebhookEvents()))
  }

  // ----- The whole run

  datatype World = World(catalog: Catalog, coupons: map<string, Coupon>, portals: seq<Portal>, endpoints: seq<Endpoint>)

  /** `registrations`: how many active tax registrations the run's mode has. */
  datatype Arguments = Arguments(tax: Tax, registrations: nat, dashboard: Url, webhook: Url)

  predicate PassesTaxGate(args: Arguments) {
    && (args.tax.code == "" <==> args.tax.behavior == "")
    && (args.tax.code != "" ==> "txcd_" <= args.tax.code && args.registrations > 0)
  }

  function Provision(world: World, dims: seq<Dimension>, args: Arguments): Attempt<World> {
    var known := ByName(world.catalog.meters);
    if !PassesTaxGate(args) then Attempt(world, false)
    else
      var run := EnsureAll(Run(world.catalog, known, true), dims, |dims|, args.tax);
      if !run.ok then Attempt(world.(catalog := run.catalog), false)
      else
        var retired := RetireAll(run.catalog, run.known, Superseded(), |Superseded()|);
        var coupons := EnsureCompCoupon(world.coupons);
        if !coupons.ok then Attempt(world.(catalog := retired, coupons := coupons.state), false)
        else
          var portals := EnsurePortal(world.portals, args.dashboard);
          if !portals.ok then Attempt(World(retired, coupons.state, portals.state, world.endpoints), false)
          else
            var endpoints := EnsureWebhook(world.endpoints, args.webhook, false);
            Attempt(World(retired, coupons.state, portals.state, endpoints.state), endpoints.ok)
  }

  /** The repair mode touches the endpoint only, and needs its URL. */
  function Repair(world: World, webhook: Url): Attempt<World> {
    if webhook.NoUrl? then Attempt(world, false)
    else
      var endpoints := EnsureWebhook(world.endpoints, webhook, true);
      Attempt(world.(endpoints := endpoints.state), endpoints.ok)
  }
}
