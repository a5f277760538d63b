/** Whole runs of scripts/stripe-billing-setup.py: what success establishes, what a second run
    does, and what no run ever takes away. */
module ProvisioningRuns {
  import opened Wrappers
  import opened PriceSheet
  import opened SheetText
  import opened Provisioning
  import opened ProvisioningProofs

  // ----- Portal

  lemma {:induction false} NoneTagged(portals: seq<Portal>, url: string)
    requires Tagged(portals) == 0
    ensures Overwrite(portals, url) == portals
  {
    if portals != [] {
      NoneTagged(portals[1..], url);
      assert forall i :: 1 <= i < |portals| ==> portals[i] == portals[1..][i - 1];
      forall i | 0 <= i < |portals|
        ensures Overwrite(portals, url)[i] == portals[i]
      {
        assert i > 0 ==> Overwrite(portals[1..], url)[i - 1] == portals[i];
      }
    }
  }

  lemma {:induction false} OverwriteKeepsTags(portals: seq<Portal>, url: string)
    ensures Tagged(Overwrite(portals, url)) == Tagged(portals)
  {
    if portals != [] {
      assert Overwrite(portals, url)[1..] == Overwrite(portals[1..], url);
      OverwriteKeepsTags(portals[1..], url);
    }
  }

  /** Overwriting the tagged configuration again changes nothing. */
  lemma PortalIsFixed(portals: seq<Portal>, url: Url)
    requires EnsurePortal(portals, url).ok
    ensures EnsurePortal(EnsurePortal(portals, url).state, url) == EnsurePortal(portals, url)
    ensures url.Url? ==> Tagged(EnsurePortal(portals, url).state) == 1
  {
    if url.Url? {
      if Tagged(portals) == 1 {
        OverwriteKeepsTags(portals, url.text);
        assert Overwrite(Overwrite(portals, url.text), url.text) == Overwrite(portals, url.text);
      } else {
        var p := Portal(true, Some(url.text));
        var after := [p] + portals;
        assert after[1..] == portals;
        NoneTagged(portals, url.text);
        assert Overwrite(after, url.text) == [p] + Overwrite(portals, url.text);
      }
    }
  }

  // ----- Webhook endpoint

  /** The endpoint the receiver needs: pinned version, exactly the handled events. */
  ghost predicate IsPinned(e: Endpoint) {
    e.enabled && e.version == WEBHOOK_API_VERSION && multiset(e.events) == multiset(WebhookEvents())
  }

  /** Exactly one enabled endpoint targets the URL, and it is pinned. */
  ghost predicate HasPinned(endpoints: seq<Endpoint>, url: string) {
    && |Targets(endpoints, url)| == 1
    && forall i :: i in Targets(endpoints, url) ==> IsPinned(endpoints[i])
  }

  lemma OneTarget(endpoints: seq<Endpoint>, url: string)
    requires Targets(endpoints, url) != {} && |Targets(endpoints, url)| <= 1
    ensures Targets(endpoints, url) == {Target(endpoints, url)}
  {
    var targets, i := Targets(endpoints, url), Target(endpoints, url);
    assert |targets - {i}| == |targets| - 1;
    assert targets == (targets - {i}) + {i};
  }

  lemma WebhookIsEnsured(endpoints: seq<Endpoint>, url: Url, addMissing: bool)
    requires EnsureWebhook(endpoints, url, addMissing).ok
    ensures var after := EnsureWebhook(endpoints, url, addMissing).state;
            && (url.Url? ==> HasPinned(after, url.text))
            && EnsureWebhook(after, url, addMissing) == Attempt(after, true)
  {
    hide WebhookEvents;
    var after := EnsureWebhook(endpoints, url, addMissing).state;
    if url.Url? {
      var targets := Targets(endpoints, url.text);
      if targets == {} {
        assert forall i :: 1 <= i < |after| ==> after[i] == endpoints[i - 1] && i - 1 !in targets;
        assert Targets(after, url.text) == {0};
      } else {
        OneTarget(endpoints, url.text);
        assert Targets(after, url.text) == targets;
      }
      assert HasPinned(after, url.text);
      PinnedIsFixed(after, url.text, addMissing);
    }
  }

  lemma PinnedIsFixed(endpoints: seq<Endpoint>, url: string, addMissing: bool)
    ensures HasPinned(endpoints, url) ==> EnsureWebhook(endpoints, Url(url), addMissing) == Attempt(endpoints, true)
  {
    hide WebhookEvents;
    if HasPinned(endpoints, url) {
      OneTarget(endpoints, url);
      SameElements(endpoints[Target(endpoints, url)].events, WebhookEvents());
    }
  }

  lemma SameElements(a: seq<string>, b: seq<string>)
    requires multiset(a) == multiset(b)
    ensures Elements(a) == Elements(b)
  {
    assert forall x :: x in a <==> x in multiset(a);
    assert forall x :: x in b <==> x in multiset(b);
  }

  /** Every endpoint is still there, in the same mode, and no event was taken from it. */
  ghost predicate EventsKept(before: seq<Endpoint>, after: seq<Endpoint>) {
    && |before| <= |after|
    && forall i :: 0 <= i < |before| ==> IsKept(before[i], after[|after| - |before| + i])
  }

  ghost predicate IsKept(e: Endpoint, f: Endpoint) {
    e.url == f.url && e.enabled == f.enabled && e.version == f.version && Elements(e.events) <= Elements(f.events)
  }

  lemma Unchanged(endpoints: seq<Endpoint>)
    ensures EventsKept(endpoints, endpoints)
  {
  }

  lemma OneIsAdded(e: Endpoint, endpoints: seq<Endpoint>)
    ensures EventsKept(endpoints, [e] + endpoints)
  {
  }

  lemma OneIsUpdated(endpoints: seq<Endpoint>, i: nat, e: Endpoint)
    requires i < |endpoints| && IsKept(endpoints[i], e)
    ensures EventsKept(endpoints, endpoints[i := e])
  {
  }

  lemma WebhookKeepsEvents(endpoints: seq<Endpoint>, url: Url, addMissing: bool)
    ensures EventsKept(endpoints, EnsureWebhook(endpoints, url, addMissing).state)
  {
    hide WebhookEvents, Elements, EventsKept, Targets;
    Unchanged(endpoints);
    if url.Url? {
      if Targets(endpoints, url.text) == {} {
        OneIsAdded(Endpoint(url.text, true, WEBHOOK_API_VERSION, WebhookEvents()), endpoints);
      } else {
        var i := Target(endpoints, url.text);
        TargetIsListed(endpoints, url.text);
        var e := endpoints[i];
        if Elements(e.events) < Elements(WebhookEvents()) {
          OneIsUpdated(endpoints, i, e.(events := WebhookEvents()));
        }
      }
    }
  }

  lemma TargetIsListed(endpoints: seq<Endpoint>, url: string)
    requires Targets(endpoints, url) != {}
    ensures Target(endpoints, url) < |endpoints|
  {
  }

  // ----- Runs

  /** What a run is for. */
  ghost predicate Provisioned(world: World, dims: seq<Dimension>, args: Arguments) {
    var c := world.catalog;
    var known := ByName(c.meters);
    && AllSettled(Run(c, known, true), dims, |dims|, args.tax)
    && (forall i :: 0 <= i < |Superseded()| && Superseded()[i] in known ==> !known[Superseded()[i]].active)
    && COMP_COUPON_ID in world.coupons && IsComp(world.coupons[COMP_COUPON_ID])
    && (args.dashboard.Url? ==> Tagged(world.portals) == 1)
    && (args.webhook.Url? ==> HasPinned(world.endpoints, args.webhook.text))
  }

  ghost predicate NoneSuperseded(dims: seq<Dimension>) {
    forall i :: 0 <= i < |dims| ==> dims[i].eventName !in Superseded()
  }

  /** The catalog part of a run. */
  lemma CatalogIsProvisioned(catalog: Catalog, dims: seq<Dimension>, tax: Tax)
    requires Valid(catalog) && NoneSuperseded(dims)
    ensures var run := EnsureAll(Run(catalog, ByName(catalog.meters), true), dims, |dims|, tax);
            run.ok ==>
            var after := RetireAll(run.catalog, run.known, Superseded(), |Superseded()|);
            var known := ByName(after.meters);
            && Valid(after)
            && AllSettled(Run(after, known, true), dims, |dims|, tax)
            && (forall i :: 0 <= i < |Superseded()| && Superseded()[i] in known ==> !known[Superseded()[i]].active)
  {
    hide ByName, Valid, Settled, RetireAll, Superseded;
    var start := Run(catalog, ByName(catalog.meters), true);
    AllAreEnsured(start, dims, |dims|, tax);
    var run := EnsureAll(start, dims, |dims|, tax);
    if run.ok {
      var names := Superseded();
      var after := RetireAll(run.catalog, run.known, names, |names|);
      RetiredAll(run.catalog, run.known, names, |names|);
      forall i | 0 <= i < |dims|
        ensures Settled(Run(after, ByName(after.meters), true), dims[i], tax)
      {
        SettledSurvivesRetiring(run, names, dims[i], tax);
      }
      forall i | 0 <= i < |names| && names[i] in ByName(after.meters)
        ensures !ByName(after.meters)[names[i]].active
      {
        assert IsAmong(names, |names|, names[i]);
      }
    }
  }

  lemma ProvisionedCatalogIsFixed(catalog: Catalog, dims: seq<Dimension>, tax: Tax)
    requires Valid(catalog)
    requires var known := ByName(catalog.meters);
             && AllSettled(Run(catalog, known, true), dims, |dims|, tax)
             && (forall i :: 0 <= i < |Superseded()| && Superseded()[i] in known ==> !known[Superseded()[i]].active)
    ensures var start := Run(catalog, ByName(catalog.meters), true);
            && EnsureAll(start, dims, |dims|, tax) == start
            && RetireAll(catalog, start.known, Superseded(), |Superseded()|) == catalog
  {
    hide ByName, Valid, Settled, Superseded;
    var start := Run(catalog, ByName(catalog.meters), true);
    SettledIsFixed(start, dims, |dims|, tax);
    RetiredIsFixed(catalog, start.known, Superseded(), |Superseded()|);
  }

  /** A successful run provisions everything, and running again with the same arguments
      succeeds and leaves the provider exactly as it is. */
  lemma RunningTwiceIsRunningOnce(world: World, dims: seq<Dimension>, args: Arguments)
    requires Valid(world.catalog) && NoneSuperseded(dims) && Provision(world, dims, args).ok
    ensures var after := Provision(world, dims, args).state;
            && Provisioned(after, dims, args)
            && Provision(after, dims, args) == Attempt(after, true)
  {
    hide ByName, Valid, AllSettled, EnsureAll, RetireAll, Superseded, PassesTaxGate, HasPinned;
    hide EnsurePortal, EnsureWebhook, NoneSuperseded, Tagged;
    var after := Provision(world, dims, args).state;
    CatalogIsProvisioned(world.catalog, dims, args.tax);
    ProvisionedCatalogIsFixed(after.catalog, dims, args.tax);
    PortalIsFixed(world.portals, args.dashboard);
    WebhookIsEnsured(world.endpoints, args.webhook, false);
  }

  /** The price sheet never asks for a superseded meter. */
  lemma SheetIsProvisionable(lines: seq<SheetLine>)
    ensures NoneSuperseded(Dimensions(lines, |lines|))
  {
    hide Superseded, Dimensions;
    var dims := Dimensions(lines, |lines|);
    forall i | 0 <= i < |dims|
      ensures dims[i].eventName !in Superseded()
    {
      NeverSuperseded(lines, |lines|, i);
    }
  }

  /** Which meters of a name are left active is decided by the listing before the run: a meter
      that was active but listed before another of the same name escapes the dictionary. So
      every superseded meter ends inactive, and every dimension has one active meter, exactly
      when no such meter was listed. */
  lemma ShadowsEscape(world: World, dims: seq<Dimension>, args: Arguments, name: string)
    requires Valid(world.catalog) && NoneSuperseded(dims) && Provision(world, dims, args).ok
    ensures var meters := Provision(world, dims, args).state.catalog.meters;
            && (name in Superseded() ==> (NoneActive(meters, name) <==> !IsShadowed(world.catalog.meters, name)))
            && (Names(dims, name) ==> (OneActive(meters, name) <==> !IsShadowed(world.catalog.meters, name)))
  {
    hide ByName, Valid, EnsureAll, RetireAll, Superseded, PassesTaxGate, IsShadowed, NoneActive, OneActive;
    hide EnsurePortal, EnsureWebhook, NoneSuperseded, EnsureCompCoupon;
    var meters := Provision(world, dims, args).state.catalog.meters;
    var start := Run(world.catalog, ByName(world.catalog.meters), true);
    var run := EnsureAll(start, dims, |dims|, args.tax);
    AllAreEnsured(start, dims, |dims|, args.tax);
    CatalogIsProvisioned(world.catalog, dims, args.tax);
    DimensionsKeepShadows(start, dims, |dims|, args.tax, name);
    RetiringKeepsShadows(run.catalog, run.known, Superseded(), |Superseded()|, name);
    EntryDecides(meters, name);
    if Names(dims, name) {
      var i :| 0 <= i < |dims| && dims[i].eventName == name;
      assert Settled(Run(Provision(world, dims, args).state.catalog, ByName(meters), true), dims[i], args.tax);
    }
  }

  /** A superseded meter does stay active when a retired one of the same name is listed after it. */
  lemma ShadowedMeterStaysActive()
    ensures
      var meters := [Meter(1, "egress_bytes", true, StandardMapping()),
                     Meter(0, "egress_bytes", false, StandardMapping())];
      var world := World(Catalog(meters, [], map[], 2), map[], [], []);
      var args := Arguments(Tax("", ""), 0, NoUrl, NoUrl);
      && Valid(world.catalog)
      && Provision(world, [], args).ok
      && !NoneActive(Provision(world, [], args).state.catalog.meters, "egress_bytes")
  {
    var meters := [Meter(1, "egress_bytes", true, StandardMapping()),
                   Meter(0, "egress_bytes", false, StandardMapping())];
    var world := World(Catalog(meters, [], map[], 2), map[], [], []);
    var args := Arguments(Tax("", ""), 0, NoUrl, NoUrl);
    assert IsShadow(meters, 0, 1, "egress_bytes");
    hide RetireAll, ByName;
    assert Superseded()[1] == "egress_bytes";
    assert Provision(world, [], args).ok;
    ShadowsEscape(world, [], args, "egress_bytes");
  }

  /** No run, in either mode and whether it succeeds or raises, takes an event from an endpoint. */
  lemma NoEventIsTaken(world: World, dims: seq<Dimension>, args: Arguments, webhook: Url)
    ensures EventsKept(world.endpoints, Provision(world, dims, args).state.endpoints)
    ensures EventsKept(world.endpoints, Repair(world, webhook).state.endpoints)
  {
    hide ByName, EnsureAll, RetireAll, PassesTaxGate, EventsKept, EnsurePortal, EnsureWebhook, EnsureCompCoupon;
    Unchanged(world.endpoints);
    WebhookKeepsEvents(world.endpoints, args.webhook, false);
    WebhookKeepsEvents(world.endpoints, webhook, true);
  }

  /** The repair changes endpoints only; success means one pinned endpoint, and is final. */
  lemma RepairIsFixed(world: World, webhook: Url)
    requires Repair(world, webhook).ok
    ensures var after := Repair(world, webhook).state;
            && after == world.(endpoints := after.endpoints)
            && webhook.Url? && HasPinned(after.endpoints, webhook.text)
            && Repair(after, webhook) == Attempt(after, true)
  {
    hide EnsureWebhook, HasPinned;
    WebhookIsEnsured(world.endpoints, webhook, true);
    BadUrlFails(world.endpoints, webhook);
  }

  lemma BadUrlFails(endpoints: seq<Endpoint>, url: Url)
    ensures url.BadUrl? ==> !EnsureWebhook(endpoints, url, true).ok
  {
  }
}
