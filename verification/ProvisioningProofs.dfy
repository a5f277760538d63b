/** What a setup run establishes, and that a second run changes nothing. */
module ProvisioningProofs {
  import opened Wrappers
  import opened PriceSheet
  import opened Provisioning

  // ----- The listing as a dictionary

  ghost predicate DistinctIds(meters: seq<Meter>) {
    forall i, j :: 0 <= i < j < |meters| ==> meters[i].id != meters[j].id
  }

  ghost predicate DistinctPriceIds(prices: seq<Price>) {
    forall i, j :: 0 <= i < j < |prices| ==> prices[i].id != prices[j].id
  }

  /** The provider never reuses an identifier. */
  ghost predicate Valid(c: Catalog) {
    && DistinctIds(c.meters)
    && DistinctPriceIds(c.prices)
    && (forall i :: 0 <= i < |c.meters| ==> c.meters[i].id < c.nextId)
    && (forall i :: 0 <= i < |c.prices| ==> c.prices[i].id < c.nextId)
    && (forall p :: p in c.products ==> p < c.nextId)
  }

  ghost predicate IsLast(meters: seq<Meter>, k: nat, name: string) {
    && k < |meters|
    && meters[k].eventName == name
    && forall j :: k < j < |meters| ==> meters[j].eventName != name
  }

  /** The dictionary's entry is the last meter listed with that name. */
  lemma {:induction false} EntryIsLast(meters: seq<Meter>, name: string) returns (k: nat)
    requires name in ByName(meters)
    ensures IsLast(meters, k, name) && meters[k] == ByName(meters)[name]
  {
    var n := |meters| - 1;
    if meters[n].eventName == name {
      k := n;
    } else {
      k := EntryIsLast(meters[..n], name);
      assert forall j :: 0 <= j < n ==> meters[..n][j] == meters[j];
    }
  }

  lemma {:induction false} NameIsListed(meters: seq<Meter>, name: string)
    ensures name in ByName(meters) <==> exists i :: 0 <= i < |meters| && meters[i].eventName == name
  {
    if meters != [] {
      var n := |meters| - 1;
      NameIsListed(meters[..n], name);
      assert forall j :: 0 <= j < n ==> meters[..n][j] == meters[j];
      if name in ByName(meters[..n]) {
        var i :| 0 <= i < |meters[..n]| && meters[..n][i].eventName == name;
        assert meters[i].eventName == name;
      }
      if i :| 0 <= i < |meters| && meters[i].eventName == name {
        assert i < n ==> meters[..n][i].eventName == name;
      }
    }
  }

  lemma {:induction false} EntryOfStatus(meters: seq<Meter>, id: Id, active: bool, name: string)
    ensures name in ByName(SetStatus(meters, id, active)) <==> name in ByName(meters)
    ensures name in ByName(meters) ==>
      ByName(SetStatus(meters, id, active))[name] == WithStatus(ByName(meters)[name], id, active)
  {
    if meters != [] {
      var n := |meters| - 1;
      assert SetStatus(meters, id, active)[..n] == SetStatus(meters[..n], id, active);
      EntryOfStatus(meters[..n], id, active, name);
    }
  }

  lemma {:induction false} EntryOfNew(m: Meter, meters: seq<Meter>)
    requires m.eventName !in ByName(meters)
    ensures ByName([m] + meters) == ByName(meters)[m.eventName := m]
  {
    if meters == [] {
      assert [m] + meters == [m];
      assert [m][..0] == [];
    } else {
      var n := |meters| - 1;
      assert ([m] + meters)[..|meters|] == [m] + meters[..n];
      EntryOfNew(m, meters[..n]);
    }
  }

  /** Entries of different names are different objects. */
  lemma EntriesDiffer(meters: seq<Meter>, a: string, b: string)
    requires DistinctIds(meters) && a in ByName(meters) && b in ByName(meters) && a != b
    ensures ByName(meters)[a].id != ByName(meters)[b].id
  {
    hide ByName;
    var i := EntryIsLast(meters, a);
    var j := EntryIsLast(meters, b);
    assert i != j;
  }

  // ----- One meter

  ghost predicate Synced(run: Run) {
    run.known == ByName(run.catalog.meters)
  }

  lemma StatusSynced(meters: seq<Meter>, known: map<string, Meter>, event: string, active: bool)
    requires DistinctIds(meters) && known == ByName(meters) && event in known
    ensures ByName(SetStatus(meters, known[event].id, active)) == known[event := known[event].(active := active)]
    ensures DistinctIds(SetStatus(meters, known[event].id, active))
  {
    hide ByName;
    var id := known[event].id;
    var after, expected := ByName(SetStatus(meters, id, active)), known[event := known[event].(active := active)];
    forall name
      ensures name in after <==> name in expected
      ensures name in after ==> after[name] == expected[name]
    {
      EntryOfStatus(meters, id, active, name);
      if name in known && name != event {
        EntriesDiffer(meters, name, event);
      }
    }
    assert after.Keys == expected.Keys;
  }

  ghost predicate IsReady(known: map<string, Meter>, event: string) {
    event in known && known[event].active && IsCompatible(known[event].mapping)
  }

  /** A meter step leaves the meter ready, touches no other name and no price, and does nothing
      to a meter that was ready. */
  lemma MeterIsEnsured(run: Run, event: string)
    requires run.ok && Valid(run.catalog) && Synced(run)
    ensures var r := EnsureMeter(run, event);
            && r.catalog.prices == run.catalog.prices && r.catalog.products == run.catalog.products
            && Valid(r.catalog) && Synced(r)
            && (r.ok ==> IsReady(r.known, event))
            && (forall n :: n != event ==> (n in r.known <==> n in run.known))
            && (forall n :: n != event && n in run.known ==> r.known[n] == run.known[n])
            && (event in run.known ==> event in r.known && r.known[event].id == run.known[event].id)
            && (IsReady(run.known, event) ==> r == run)
  {
    hide ByName, IsCompatible;
    var c := run.catalog;
    if event in run.known {
      if IsCompatible(run.known[event].mapping) && !run.known[event].active {
        StatusSynced(c.meters, run.known, event, true);
      }
    } else {
      StandardIsCompatible();
      EntryOfNew(Meter(c.nextId, event, true, StandardMapping()), c.meters);
    }
  }

  lemma StandardIsCompatible()
    ensures IsCompatible(StandardMapping())
  {
  }

  // ----- One price

  ghost predicate IsTaxed(c: Catalog, p: Price, tax: Tax) {
    tax.behavior != "" ==>
      && p.taxBehavior == tax.behavior
      && p.product.Some? && p.product.value in c.products && c.products[p.product.value] == tax.code
  }

  /** Exactly one active price has the key, and it is the wanted one. */
  ghost predicate IsPriced(c: Catalog, key: string, cents: real, meter: Id, tax: Tax) {
    var active := ActivePrices(c.prices, key);
    |active| == 1 && active[0].terms == WantedTerms(meter, cents) && IsTaxed(c, active[0], tax)
  }

  lemma {:induction false} ActiveAfterBehavior(prices: seq<Price>, id: Id, behavior: string, key: string)
    ensures |ActivePrices(SetBehavior(prices, id, behavior), key)| == |ActivePrices(prices, key)|
    ensures forall i :: 0 <= i < |ActivePrices(prices, key)| ==>
      ActivePrices(SetBehavior(prices, id, behavior), key)[i]
          == WithBehavior(ActivePrices(prices, key)[i], id, behavior)
  {
    if prices != [] {
      assert SetBehavior(prices, id, behavior)[1..] == SetBehavior(prices[1..], id, behavior);
      ActiveAfterBehavior(prices[1..], id, behavior, key);
    }
  }

  lemma {:induction false} ActiveIsListed(prices: seq<Price>, key: string, i: nat) returns (k: nat)
    requires i < |ActivePrices(prices, key)|
    ensures k < |prices| && prices[k] == ActivePrices(prices, key)[i] && prices[k].lookupKey == key
  {
    if prices[0].active && prices[0].lookupKey == key && i == 0 {
      k := 0;
    } else {
      var shift := if prices[0].active && prices[0].lookupKey == key then 1 else 0;
      k := ActiveIsListed(prices[1..], key, i - shift);
      k := k + 1;
    }
  }

  /** Marking the behavior of a key's active price changes that key's price only. */
  lemma BehaviorOfOthers(prices: seq<Price>, event: string, behavior: string, key: string)
    requires DistinctPriceIds(prices) && ActivePrices(prices, event) != []
    ensures var after := SetBehavior(prices, ActivePrices(prices, event)[0].id, behavior);
            && DistinctPriceIds(after)
            && (key != event ==> ActivePrices(after, key) == ActivePrices(prices, key))
  {
    hide ActivePrices;
    var p := ActivePrices(prices, event)[0];
    var k := ActiveIsListed(prices, event, 0);
    ActiveAfterBehavior(prices, p.id, behavior, key);
    if key != event {
      forall i | 0 <= i < |ActivePrices(prices, key)|
        ensures WithBehavior(ActivePrices(prices, key)[i], p.id, behavior) == ActivePrices(prices, key)[i]
      {
        var j := ActiveIsListed(prices, key, i);
        assert prices[j].id != p.id;
      }
    }
  }

  lemma SameBehavior(prices: seq<Price>, event: string)
    requires DistinctPriceIds(prices) && ActivePrices(prices, event) != []
    ensures var p := ActivePrices(prices, event)[0];
            SetBehavior(prices, p.id, p.taxBehavior) == prices
  {
    hide ActivePrices;
    var k := ActiveIsListed(prices, event, 0);
  }

  lemma ProductTaxIsEnsured(c: Catalog, product: Option<Id>, tax: Tax)
    requires Valid(c)
    ensures var r := EnsureProductTax(c, product, tax.code);
            && r.state.meters == c.meters && r.state.prices == c.prices && Valid(r.state)
            && (r.ok ==>
                product.Some? && product.value in r.state.products && r.state.products[product.value] == tax.code)
            && (forall x :: x in c.products ==>
                x in r.state.products && r.state.products[x] in {c.products[x], tax.code})
            && (product.Some? && product.value in c.products && c.products[product.value] == tax.code ==>
                r == Attempt(c, true))
  {
  }

  lemma TaxIsEnsured(c: Catalog, event: string, tax: Tax)
    requires Valid(c) && |ActivePrices(c.prices, event)| == 1
    ensures var p := ActivePrices(c.prices, event)[0];
            var r := EnsureTax(c, p, tax);
            var after := ActivePrices(r.state.prices, event);
            && r.state.meters == c.meters && Valid(r.state)
            && (r.ok ==> |after| == 1 && after[0].terms == p.terms && IsTaxed(r.state, after[0], tax))
            && (forall key :: key != event ==> ActivePrices(r.state.prices, key) == ActivePrices(c.prices, key))
            && (forall x :: x in c.products ==>
                x in r.state.products && r.state.products[x] in {c.products[x], tax.code})
            && (IsTaxed(c, p, tax) ==> r == Attempt(c, true))
  {
    hide ActivePrices, DistinctIds, EnsureProductTax;
    var p := ActivePrices(c.prices, event)[0];
    if tax.behavior != "" {
      if p.taxBehavior == "unspecified" {
        var prices := SetBehavior(c.prices, p.id, tax.behavior);
        forall key
          ensures key != event ==> ActivePrices(prices, key) == ActivePrices(c.prices, key)
        {
          BehaviorOfOthers(c.prices, event, tax.behavior, key);
        }
        BehaviorOfOthers(c.prices, event, tax.behavior, event);
        ActiveAfterBehavior(c.prices, p.id, tax.behavior, event);
        SameBehavior(c.prices, event);
        ProductTaxIsEnsured(c.(prices := prices), p.product, tax);
      } else {
        ProductTaxIsEnsured(c, p.product, tax);
      }
    }
  }

  lemma CreatedIsPriced(c: Catalog, event: string, cents: real, meter: Id, tax: Tax)
    requires Valid(c) && ActivePrices(c.prices, event) == []
    ensures var after := CreatePrice(c, event, cents, meter, tax);
            && after.meters == c.meters && Valid(after)
            && IsPriced(after, event, cents, meter, tax)
            && (forall key :: key != event ==> ActivePrices(after.prices, key) == ActivePrices(c.prices, key))
            && (forall x :: x in c.products ==> x in after.products && after.products[x] == c.products[x])
  {
  }

  /** A price step leaves exactly the wanted price, keeps the settled prices of other keys, and
      does nothing where the wanted price was settled. */
  lemma PriceIsEnsured(c: Catalog, event: string, cents: real, meter: Id, tax: Tax)
    requires Valid(c)
    ensures var r := EnsurePrice(c, event, cents, meter, tax);
            && r.state.meters == c.meters && Valid(r.state)
            && (r.ok ==> IsPriced(r.state, event, cents, meter, tax))
            && (IsPriced(c, event, cents, meter, tax) ==> r == Attempt(c, true))
    ensures forall key, cents', meter' :: key != event && IsPriced(c, key, cents', meter', tax)
              ==> IsPriced(EnsurePrice(c, event, cents, meter, tax).state, key, cents', meter', tax)
  {
    hide ActivePrices, Valid, EnsureTax, CreatePrice, WantedTerms;
    var existing := ActivePrices(c.prices, event);
    if existing == [] {
      CreatedIsPriced(c, event, cents, meter, tax);
    } else if |existing| == 1 && existing[0].terms == WantedTerms(meter, cents) {
      TaxIsEnsured(c, event, tax);
    }
  }

  // ----- One dimension

  /** The dimension has its meter and its price. */
  ghost predicate Settled(run: Run, d: Dimension, tax: Tax) {
    && IsReady(run.known, d.eventName)
    && IsPriced(run.catalog, d.eventName, d.cents, run.known[d.eventName].id, tax)
  }

  lemma PricedSurvives(before: Catalog, after: Catalog, key: string, cents: real, meter: Id, tax: Tax)
    requires before.prices == after.prices && before.products == after.products
    ensures IsPriced(before, key, cents, meter, tax) <==> IsPriced(after, key, cents, meter, tax)
  {
  }

  lemma DimensionIsEnsured(run: Run, d: Dimension, tax: Tax)
    requires run.ok && Valid(run.catalog) && Synced(run)
    ensures var r := EnsureDimension(run, d, tax);
            && Valid(r.catalog) && Synced(r)
            && (r.ok ==> Settled(r, d, tax))
            && (Settled(run, d, tax) ==> r == run)
            && (forall n :: n != d.eventName ==> (n in r.known <==> n in run.known))
  {
    hide ByName, Valid, EnsureMeter, EnsurePrice, IsPriced, IsReady;
    var metered := EnsureMeter(run, d.eventName);
    MeterIsEnsured(run, d.eventName);
    if metered.ok {
      ReadyIsKnown(metered.known, d.eventName);
      PriceIsEnsured(metered.catalog, d.eventName, d.cents, metered.known[d.eventName].id, tax);
    }
    if Settled(run, d, tax) {
      ReadyIsKnown(run.known, d.eventName);
    }
  }

  lemma ReadyIsKnown(known: map<string, Meter>, event: string)
    requires IsReady(known, event)
    ensures event in known
  {
  }

  /** What was settled stays settled through the steps of other dimensions, and also of one
      that bills on the same meter. */
  lemma SettledStays(run: Run, d: Dimension, other: Dimension, tax: Tax)
    requires run.ok && Valid(run.catalog) && Synced(run)
    requires Settled(run, other, tax) && EnsureDimension(run, d, tax).ok
    ensures Settled(EnsureDimension(run, d, tax), other, tax)
  {
    hide ByName, Valid, EnsureMeter, IsPriced, IsCompatible;
    var metered := EnsureMeter(run, d.eventName);
    MeterIsEnsured(run, d.eventName);
    var meter := metered.known[d.eventName].id;
    PriceIsEnsured(metered.catalog, d.eventName, d.cents, meter, tax);
    PricedSurvives(run.catalog, metered.catalog, other.eventName, other.cents, run.known[other.eventName].id, tax);
    if d.eventName == other.eventName {
      assert metered == run;
      SamePrice(run.catalog, d.eventName, d.cents, other.cents, meter, tax);
    }
  }

  lemma SamePrice(c: Catalog, event: string, cents: real, cents': real, meter: Id, tax: Tax)
    requires IsPriced(c, event, cents', meter, tax) && EnsurePrice(c, event, cents, meter, tax).ok
    ensures cents == cents'
  {
  }

  // ----- All dimensions

  ghost predicate AllSettled(run: Run, dims: seq<Dimension>, n: nat, tax: Tax)
    requires n <= |dims|
  {
    forall i :: 0 <= i < n ==> Settled(run, dims[i], tax)
  }

  lemma {:induction false} AllAreEnsured(run: Run, dims: seq<Dimension>, n: nat, tax: Tax)
    requires n <= |dims| && run.ok && Valid(run.catalog) && Synced(run)
    ensures var r := EnsureAll(run, dims, n, tax);
            Valid(r.catalog) && Synced(r) && (r.ok ==> AllSettled(r, dims, n, tax))
  {
    hide Valid, Synced, EnsureDimension, Settled;
    if n > 0 {
      AllAreEnsured(run, dims, n - 1, tax);
      var before := EnsureAll(run, dims, n - 1, tax);
      if before.ok {
        DimensionIsEnsured(before, dims[n - 1], tax);
        if EnsureDimension(before, dims[n - 1], tax).ok {
          forall i | 0 <= i < n - 1
            ensures Settled(EnsureDimension(before, dims[n - 1], tax), dims[i], tax)
          {
            SettledStays(before, dims[n - 1], dims[i], tax);
          }
        }
      }
    }
  }

  lemma {:induction false} SettledIsFixed(run: Run, dims: seq<Dimension>, n: nat, tax: Tax)
    requires n <= |dims| && run.ok && Valid(run.catalog) && Synced(run)
    requires AllSettled(run, dims, n, tax)
    ensures EnsureAll(run, dims, n, tax) == run
  {
    hide Valid, Synced, EnsureDimension, Settled;
    if n > 0 {
      SettledIsFixed(run, dims, n - 1, tax);
      DimensionIsEnsured(run, dims[n - 1], tax);
    }
  }

  // ----- The superseded meters

  ghost predicate IsAmong(names: seq<string>, n: nat, name: string)
    requires n <= |names|
  {
    exists i :: 0 <= i < n && names[i] == name
  }

  /** The dictionary after retiring the first `n` names: their entries are inactive. */
  ghost predicate AreRetired(c: Catalog, known: map<string, Meter>, names: seq<string>, n: nat)
    requires n <= |names|
  {
    var now := ByName(c.meters);
    forall x :: (x in now <==> x in known)
      && (x in known ==> now[x] == if IsAmong(names, n, x) then known[x].(active := false) else known[x])
  }

  lemma RetireOne(c: Catalog, known: map<string, Meter>, original: seq<Meter>, names: seq<string>, n: nat)
    requires n < |names| && DistinctIds(original) && known == ByName(original)
    requires Valid(c) && AreRetired(c, known, names, n)
    ensures Valid(Retire(c, known, names[n])) && AreRetired(Retire(c, known, names[n]), known, names, n + 1)
  {
    hide ByName;
    var name := names[n];
    var after := Retire(c, known, name);
    assert IsAmong(names, n + 1, name);
    forall x
      ensures x in ByName(after.meters) <==> x in known
      ensures x in known ==>
        ByName(after.meters)[x] == if IsAmong(names, n + 1, x) then known[x].(active := false) else known[x]
    {
      assert IsAmong(names, n + 1, x) <==> IsAmong(names, n, x) || x == name;
      if name in known && known[name].active {
        EntryOfStatus(c.meters, known[name].id, false, x);
        if x in known && x != name {
          EntriesDiffer(original, x, name);
        }
      }
    }
  }

  lemma {:induction false} RetiredAll(c: Catalog, known: map<string, Meter>, names: seq<string>, n: nat)
    requires n <= |names| && Valid(c) && known == ByName(c.meters)
    ensures var r := RetireAll(c, known, names, n);
            Valid(r) && AreRetired(r, known, names, n) && r.prices == c.prices && r.products == c.products
  {
    hide ByName, Valid, AreRetired, IsAmong;
    if n == 0 {
      NothingRetired(c, known, names);
    } else {
      RetiredAll(c, known, names, n - 1);
      ValidIsDistinct(c);
      RetireOne(RetireAll(c, known, names, n - 1), known, c.meters, names, n - 1);
    }
  }

  lemma ValidIsDistinct(c: Catalog)
    requires Valid(c)
    ensures DistinctIds(c.meters)
  {
  }

  lemma NothingRetired(c: Catalog, known: map<string, Meter>, names: seq<string>)
    requires known == ByName(c.meters)
    ensures AreRetired(c, known, names, 0)
  {
  }

  /** Nothing is left to retire where every superseded name is absent or inactive. */
  lemma {:induction false} RetiredIsFixed(c: Catalog, known: map<string, Meter>, names: seq<string>, n: nat)
    requires n <= |names|
    requires forall i :: 0 <= i < n && names[i] in known ==> !known[names[i]].active
    ensures RetireAll(c, known, names, n) == c
  {
    if n > 0 {
      RetiredIsFixed(c, known, names, n - 1);
    }
  }

  lemma SettledSurvivesRetiring(run: Run, names: seq<string>, d: Dimension, tax: Tax)
    requires Valid(run.catalog) && Synced(run) && Settled(run, d, tax) && d.eventName !in names
    ensures var after := RetireAll(run.catalog, run.known, names, |names|);
            Settled(Run(after, ByName(after.meters), true), d, tax)
  {
    hide ByName, Valid, RetireAll, IsPriced;
    RetiredAll(run.catalog, run.known, names, |names|);
    var after := RetireAll(run.catalog, run.known, names, |names|);
    assert !IsAmong(names, |names|, d.eventName);
    assert ByName(after.meters)[d.eventName] == run.known[d.eventName];
    PricedSurvives(run.catalog, after, d.eventName, d.cents, run.known[d.eventName].id, tax);
  }

  // ----- Meters hidden behind a later one of the same name

  /** An active meter with the name is listed before another one with that name. */
  ghost predicate IsShadowed(meters: seq<Meter>, name: string) {
    exists i, j :: 0 <= i < j < |meters| && IsShadow(meters, i, j, name)
  }

  ghost predicate IsShadow(meters: seq<Meter>, i: nat, j: nat, name: string)
    requires i < |meters| && j < |meters|
  {
    meters[i].eventName == name && meters[j].eventName == name && meters[i].active
  }

  lemma StatusKeepsShadows(meters: seq<Meter>, event: string, active: bool, name: string)
    requires DistinctIds(meters) && event in ByName(meters)
    ensures IsShadowed(SetStatus(meters, ByName(meters)[event].id, active), name) <==> IsShadowed(meters, name)
  {
    var k := EntryIsLast(meters, event);
    hide ByName;
    var after := SetStatus(meters, meters[k].id, active);
    forall i, j | 0 <= i < j < |meters|
      ensures IsShadow(after, i, j, name) <==> IsShadow(meters, i, j, name)
    {
    }
    hide IsShadow, SetStatus;
    if IsShadowed(meters, name) {
      var i, j :| 0 <= i < j < |meters| && IsShadow(meters, i, j, name);
      assert IsShadow(after, i, j, name);
    }
  }

  lemma NewKeepsShadows(m: Meter, meters: seq<Meter>, name: string)
    requires m.eventName !in ByName(meters)
    ensures IsShadowed([m] + meters, name) <==> IsShadowed(meters, name)
  {
    NameIsListed(meters, m.eventName);
    hide ByName;
    var after := [m] + meters;
    if IsShadowed(meters, name) {
      var i, j :| 0 <= i < j < |meters| && IsShadow(meters, i, j, name);
      assert IsShadow(after, i + 1, j + 1, name);
    }
    if IsShadowed(after, name) {
      var i, j :| 0 <= i < j < |after| && IsShadow(after, i, j, name);
      assert meters[j - 1].eventName == name;
      assert i > 0;
      assert IsShadow(meters, i - 1, j - 1, name);
    }
  }

  lemma MeterKeepsShadows(run: Run, event: string, name: string)
    requires Valid(run.catalog) && Synced(run)
    ensures IsShadowed(EnsureMeter(run, event).catalog.meters, name) <==> IsShadowed(run.catalog.meters, name)
  {
    hide ByName, IsShadowed, IsCompatible;
    var c := run.catalog;
    if event in run.known {
      StatusKeepsShadows(c.meters, event, true, name);
    } else {
      NewKeepsShadows(Meter(c.nextId, event, true, StandardMapping()), c.meters, name);
    }
  }

  lemma {:induction false} DimensionsKeepShadows(run: Run, dims: seq<Dimension>, n: nat, tax: Tax, name: string)
    requires n <= |dims| && run.ok && Valid(run.catalog) && Synced(run)
    ensures IsShadowed(EnsureAll(run, dims, n, tax).catalog.meters, name) <==> IsShadowed(run.catalog.meters, name)
  {
    hide ByName, Valid, Synced, IsShadowed, EnsureMeter, EnsurePrice;
    if n > 0 {
      DimensionsKeepShadows(run, dims, n - 1, tax, name);
      AllAreEnsured(run, dims, n - 1, tax);
      var before, d := EnsureAll(run, dims, n - 1, tax), dims[n - 1];
      if before.ok {
        MeterKeepsShadows(before, d.eventName, name);
        MeterIsEnsured(before, d.eventName);
        var metered := EnsureMeter(before, d.eventName);
        PriceIsEnsured(metered.catalog, d.eventName, d.cents, MeterOf(metered.known, d.eventName), tax);
      }
    }
  }

  lemma {:induction false} RetiringKeepsShadows(c: Catalog, known: map<string, Meter>, names: seq<string>,
                                                n: nat, name: string)
    requires n <= |names| && Valid(c) && known == ByName(c.meters)
    ensures IsShadowed(RetireAll(c, known, names, n).meters, name) <==> IsShadowed(c.meters, name)
  {
    hide ByName, Valid, IsShadowed, IsAmong;
    if n > 0 {
      RetiringKeepsShadows(c, known, names, n - 1, name);
      RetiredAll(c, known, names, n - 1);
      var before := RetireAll(c, known, names, n - 1);
      ValidIsDistinct(before);
      if names[n - 1] in known {
        assert names[n - 1] in ByName(before.meters);
        StatusKeepsShadows(before.meters, names[n - 1], false, name);
      }
    }
  }

  ghost predicate IsActive(meters: seq<Meter>, i: nat, name: string)
    requires i < |meters|
  {
    meters[i].eventName == name && meters[i].active
  }

  /** Exactly one active meter has the name. */
  ghost predicate OneActive(meters: seq<Meter>, name: string) {
    && (exists i :: 0 <= i < |meters| && IsActive(meters, i, name))
    && (forall i, j :: 0 <= i < j < |meters| ==> !(IsActive(meters, i, name) && IsActive(meters, j, name)))
  }

  ghost predicate NoneActive(meters: seq<Meter>, name: string) {
    forall i :: 0 <= i < |meters| ==> !IsActive(meters, i, name)
  }

  lemma EntryDecides(meters: seq<Meter>, name: string)
    ensures name in ByName(meters) && ByName(meters)[name].active ==>
      (OneActive(meters, name) <==> !IsShadowed(meters, name))
    ensures (name in ByName(meters) ==> !ByName(meters)[name].active) ==>
      (NoneActive(meters, name) <==> !IsShadowed(meters, name))
  {
    NameIsListed(meters, name);
    if name in ByName(meters) {
      var k := EntryIsLast(meters, name);
      hide ByName;
      assert meters[k].active <==> IsActive(meters, k, name);
      if IsShadowed(meters, name) {
        var i, j :| 0 <= i < j < |meters| && IsShadow(meters, i, j, name);
        assert IsActive(meters, i, name) && i < k;
      } else {
        forall i | 0 <= i < k
          ensures !IsActive(meters, i, name)
        {
          assert !IsShadow(meters, i, k, name);
        }
      }
    }
  }
}
