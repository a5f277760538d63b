/** The setup run of scripts/stripe-billing-setup.py as it executes: steps that change the
    provider and the run's own dictionary in place, each held to its specification. */
module BillingSetup {
  import opened Wrappers
  import opened PriceSheet
  import P = Provisioning

  class Setup {
    // The provider.
    var catalog: P.Catalog
    var coupons: map<string, P.Coupon>
    var portals: seq<P.Portal>
    var endpoints: seq<P.Endpoint>

    // The run's dictionary of meters by event name.
    var meters: map<string, P.Meter>

    constructor (world: P.World)
      ensures View() == world
    {
      catalog, coupons, portals, endpoints := world.catalog, world.coupons, world.portals, world.endpoints;
      meters := map[];
    }

    ghost function View(): P.World
      reads this
    {
      P.World(catalog, coupons, portals, endpoints)
    }

    ghost function State(ok: bool): P.Run
      reads this
    {
      P.Run(catalog, meters, ok)
    }

    /** `existing_meters` */
    method ReadMeters()
      modifies this`meters
      ensures meters == P.ByName(catalog.meters)
    {
      meters := map[];
      for n := 0 to |catalog.meters|
        invariant catalog == old(catalog)
        invariant meters == P.ByName(catalog.meters[..n])
      {
        var meter := catalog.meters[n];
        assert catalog.meters[..n + 1][..n] == catalog.meters[..n];
        meters := meters[meter.eventName := meter];
      }
      assert catalog.meters[..|catalog.meters|] == catalog.meters;
    }

    method EnsureMeter(event: string) returns (id: Option<P.Id>)
      modifies this`catalog, this`meters
      ensures State(id.Some?) == P.EnsureMeter(old(State(true)), event)
      ensures id.Some? ==> event in meters && id.value == meters[event].id
    {
      if event in meters {
        var meter := meters[event];
        if !P.IsCompatible(meter.mapping) {
          return None;
        }
        if !meter.active {
          catalog := catalog.(meters := P.SetStatus(catalog.meters, meter.id, true));
          meters := meters[event := meter.(active := true)];
        }
        return Some(meter.id);
      }
      var meter := P.Meter(catalog.nextId, event, true, P.StandardMapping());
      catalog := catalog.(meters := [meter] + catalog.meters, nextId := catalog.nextId + 1);
      meters := meters[event := meter];
      return Some(meter.id);
    }

    method EnsureProductTax(product: Option<P.Id>, code: string) returns (ok: bool)
      modifies this`catalog
      ensures P.Attempt(catalog, ok) == P.EnsureProductTax(old(catalog), product, code)
    {
      if product.None? || product.value !in catalog.products {
        return false;
      }
      if catalog.products[product.value] != code {
        catalog := catalog.(products := catalog.products[product.value := code]);
      }
      return true;
    }

    method EnsurePrice(event: string, cents: real, meter: P.Id, tax: P.Tax) returns (ok: bool)
      modifies this`catalog
      ensures P.Attempt(catalog, ok) == P.EnsurePrice(old(catalog), event, cents, meter, tax)
    {
      var existing := P.ActivePrices(catalog.prices, event);
      if |existing| > 1 {
        return false;
      }
      if |existing| == 1 {
        var price := existing[0];
        if price.terms != P.WantedTerms(meter, cents) {
          return false;
        }
        if tax.behavior != "" {
          if price.taxBehavior == "unspecified" {
            catalog := catalog.(prices := P.SetBehavior(catalog.prices, price.id, tax.behavior));
          } else if price.taxBehavior != tax.behavior {
            return false;
          }
          ok := EnsureProductTax(price.product, tax.code);
          return;
        }
        return true;
      }
      catalog := P.CreatePrice(catalog, event, cents, meter, tax);
      return true;
    }

    /** The loop over the priced dimensions. */
    method EnsureDimensions(dims: seq<Dimension>, tax: P.Tax) returns (ok: bool)
      modifies this`catalog, this`meters
      ensures State(ok) == P.EnsureAll(old(State(true)), dims, |dims|, tax)
    {
      hide P.EnsureMeter, P.EnsurePrice;
      for n := 0 to |dims|
        invariant State(true) == P.EnsureAll(old(State(true)), dims, n, tax)
      {
        var d := dims[n];
        var id := EnsureMeter(d.eventName);
        var priced := false;
        if id.Some? {
          priced := EnsurePrice(d.eventName, d.cents, id.value, tax);
        }
        if !priced {
          Stuck(old(State(true)), dims, n + 1, tax, State(false));
          return false;
        }
      }
      return true;
    }

    /** The loop over the superseded meters. */
    method RetireSuperseded()
      modifies this`catalog
      ensures catalog == P.RetireAll(old(catalog), meters, Superseded(), |Superseded()|)
    {
      var names := Superseded();
      for n := 0 to |names|
        invariant catalog == P.RetireAll(old(catalog), meters, names, n)
      {
        if names[n] in meters && meters[names[n]].active {
          catalog := catalog.(meters := P.SetStatus(catalog.meters, meters[names[n]].id, false));
        }
      }
    }

    method EnsureCompCoupon() returns (ok: bool)
      modifies this`coupons
      ensures P.Attempt(coupons, ok) == P.EnsureCompCoupon(old(coupons))
    {
      if P.COMP_COUPON_ID in coupons {
        return P.IsComp(coupons[P.COMP_COUPON_ID]);
      }
      coupons := coupons[P.COMP_COUPON_ID := P.Coupon(true, Some(100.0), "forever")];
      return true;
    }

    /** The run of `main` without the repair mode. */
    method Provision(dims: seq<Dimension>, args: P.Arguments) returns (ok: bool)
      modifies this
      ensures P.Attempt(View(), ok) == P.Provision(old(View()), dims, args)
    {
      hide P.EnsureAll, P.RetireAll, P.ByName, P.EnsureCompCoupon, P.EnsurePortal, P.EnsureWebhook, P.PassesTaxGate;
      hide Superseded;
      ReadMeters();
      if !P.PassesTaxGate(args) {
        return false;
      }
      ok := EnsureDimensions(dims, args.tax);
      if !ok {
        return;
      }
      RetireSuperseded();
      ok := EnsureCompCoupon();
      if !ok {
        return;
      }
      var portal := P.EnsurePortal(portals, args.dashboard);
      portals := portal.state;
      if !portal.ok {
        return false;
      }
      var webhook := P.EnsureWebhook(endpoints, args.webhook, false);
      endpoints := webhook.state;
      return webhook.ok;
    }
  }

  /** A step that raises ends the loop: later dimensions are not looked at. */
  lemma Stuck(start: P.Run, dims: seq<Dimension>, n: nat, tax: P.Tax, r: P.Run)
    requires n <= |dims| && P.EnsureAll(start, dims, n, tax) == r && !r.ok
    ensures P.EnsureAll(start, dims, |dims|, tax) == r
    decreases |dims| - n
  {
    if n < |dims| {
      Stuck(start, dims, n + 1, tax, r);
    }
  }
}
