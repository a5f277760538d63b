/** What the emitter sends to the provider (lego/backend/internal/billing/stripe.go) against
    what the reconciliation expects to find there (scripts/stripe_billing_reconcile.py). */
module Emission {
  import opened Wrappers
  import opened Rounding
  import opened Reconcile

  const KEY_VALUE_METER := "key_value_cost_microusd"
  const DISK_METER := "disk_gb_hours"
  const ZERO_RATE := "local_zero_rate"

  /** One stored usage row; an empty resource kind stands for a service. */
  datatype Usage = Usage(resourceKind: string, kind: string, tier: string, quantity: nat)

  /** The stored row with the state of its export. */
  datatype Export = Export(usage: Usage, state: string, transactionId: string, errorCode: string)

  /** The meters that exist, and the rate of each paid Key Value tier in millionths of a dollar
      a second. */
  datatype Sheet = Sheet(meters: set<string>, keyValueRates: map<string, real>)

  /** `Skipped` is usage that no meter bills; it is settled locally. */
  datatype MeterEvent = Skipped | MeterEvent(name: string, value: real)

  // ----- What is sent

  function ResourceKindOf(usage: Usage): string {
    if usage.resourceKind == "" then "service" else usage.resourceKind
  }

  /** Scaled down to the billed unit, to twelve decimals, halves away from zero. */
  function ScaleDown(quantity: nat, units: real): real
    requires units > 0.0
  {
    HalfUp12(quantity as real / units)
  }

  /** Rated exactly, then rounded to six decimals, halves away from zero. */
  function KeyValueCost(seconds: nat, rate: real): real {
    HalfUp(Times(seconds as real, rate) * 1000000.0) as real / 1000000.0
  }

  function InstanceEvent(sheet: Sheet, usage: Usage): MeterEvent {
    var name := "instance_seconds." + ResourceKindOf(usage) + "." + usage.tier;
    if usage.tier == "" || usage.tier == "free" then Skipped
    else if ResourceKindOf(usage) == "key_value" then
      if usage.tier in sheet.keyValueRates
      then MeterEvent(KEY_VALUE_METER, KeyValueCost(usage.quantity, sheet.keyValueRates[usage.tier]))
      else Skipped
    else if name in sheet.meters then MeterEvent(name, usage.quantity as real)
    else Skipped
  }

  /** The meter event of a stored row: which meter it names and the value it sends. */
  function EventOf(sheet: Sheet, usage: Usage): MeterEvent {
    var quantity := usage.quantity;
    if usage.kind == "instance_seconds" then InstanceEvent(sheet, usage)
    else if usage.kind == "egress_bytes" then MeterEvent("egress_gib", ScaleDown(quantity, 1073741824.0))
    else if usage.kind == "storage_gb_seconds" then
      if usage.tier == "free" then Skipped else MeterEvent("storage_gb_hours", ScaleDown(quantity, 3600.0))
    else if usage.kind == "disk_gb_seconds" then MeterEvent(DISK_METER, ScaleDown(quantity, 3600.0))
    else if usage.kind == "sandbox_compute_seconds" && usage.kind !in sheet.meters then Skipped
    else if IsTokenCount(usage.kind) then Skipped
    else MeterEvent(usage.kind, quantity as real)
  }

  predicate IsTokenCount(kind: string) {
    || kind == "agent_model_input_tokens"
    || kind == "agent_model_output_tokens"
    || kind == "agent_model_cache_read_tokens"
    || kind == "agent_model_cache_write_tokens"
  }

  // ----- What is expected

  function KindOf(kind: string): Kind {
    if kind == "egress_bytes" then EgressBytes
    else if kind == "storage_gb_seconds" then StorageGbSeconds
    else if kind == "disk_gb_seconds" then DiskGbSeconds
    else OtherKind
  }

  function EventNameOf(sheet: Sheet, usage: Usage): string {
    match EventOf(sheet, usage)
    case Skipped => ZERO_RATE
    case MeterEvent(name, _) => name
  }

  /** The row the comparison reads: the raw quantity under the name the emitter stored. */
  function RowOf(sheet: Sheet, x: Export): Row {
    Row(x.state, x.transactionId, EventNameOf(sheet, x.usage), x.errorCode, KindOf(x.usage.kind),
        Decimal(x.usage.quantity as real))
  }

  function RowsOf(sheet: Sheet, xs: seq<Export>): (rows: seq<Row>)
    ensures |rows| == |xs| && forall i :: 0 <= i < |xs| ==> rows[i] == RowOf(sheet, xs[i])
  {
    seq(|xs|, i requires 0 <= i < |xs| => RowOf(sheet, xs[i]))
  }

  /** The value of the row at the provider. */
  function Emitted(sheet: Sheet, x: Export): real {
    match EventOf(sheet, x.usage)
    case Skipped => 0.0
    case MeterEvent(_, value) => value
  }

  /** What the provider has for an event when it adds up what was sent. */
  function Sent(sheet: Sheet, xs: seq<Export>, event: string): real {
    if xs == [] then 0.0
    else
      var x := xs[|xs| - 1];
      Sent(sheet, xs[..|xs| - 1], event) + if Feeds(RowOf(sheet, x), event) then Emitted(sheet, x) else 0.0
  }

  // ----- Where the two differ

  predicate IsDiskUsage(x: Export) {
    x.state == "emitted" && x.usage.kind == "disk_gb_seconds" && x.usage.quantity != 0
  }

  predicate IsKeyValue(sheet: Sheet, x: Export) {
    && x.state == "emitted"
    && x.usage.kind == "instance_seconds"
    && ResourceKindOf(x.usage) == "key_value"
    && x.usage.tier != "" && x.usage.tier != "free"
    && x.usage.tier in sheet.keyValueRates
  }

  /** The summed cost of the paid Key Value usage. */
  function KeyValueCosts(sheet: Sheet, xs: seq<Export>): real {
    if xs == [] then 0.0
    else
      var x := xs[|xs| - 1];
      KeyValueCosts(sheet, xs[..|xs| - 1])
      + if IsKeyValue(sheet, x) then KeyValueCost(x.usage.quantity, sheet.keyValueRates[x.usage.tier]) else 0.0
  }

  /** The summed seconds of the same usage. */
  function KeyValueSeconds(sheet: Sheet, xs: seq<Export>): nat {
    if xs == [] then 0
    else
      var x := xs[|xs| - 1];
      KeyValueSeconds(sheet, xs[..|xs| - 1]) + if IsKeyValue(sheet, x) then x.usage.quantity else 0
  }

  ghost predicate NoDiskUsage(xs: seq<Export>) {
    forall i :: 0 <= i < |xs| ==> !IsDiskUsage(xs[i])
  }

  lemma ScaledDiskIsSmaller(quantity: nat)
    ensures ScaleDown(quantity, 3600.0) <= quantity as real
    ensures ScaleDown(quantity, 3600.0) == quantity as real <==> quantity == 0
  {
    var scaled := quantity as real / 3600.0 * SCALE;
    HalfUpMeans(scaled, HalfUp(scaled));
  }

  lemma NamesDiffer(usage: Usage)
    ensures var name := "instance_seconds." + ResourceKindOf(usage) + "." + usage.tier;
            name != KEY_VALUE_METER && name != DISK_METER && name != ZERO_RATE && name != ""
  {
    var name := "instance_seconds." + ResourceKindOf(usage) + "." + usage.tier;
    assert name[0] == 'i';
  }

  /** The two programs re-base a row alike, unless it is disk usage or paid Key Value usage. Of
      disk usage the comparison expects the raw number, which is more than what was sent; of Key
      Value usage it expects the seconds, where the cost was sent. */
  lemma RowsAgreeUnless(sheet: Sheet, x: Export)
    requires IsCounted(RowOf(sheet, x))
    ensures IsKeyValue(sheet, x) ==>
      && RowOf(sheet, x).eventName == KEY_VALUE_METER
      && Value(RowOf(sheet, x)) == x.usage.quantity as real
      && Emitted(sheet, x) == KeyValueCost(x.usage.quantity, sheet.keyValueRates[x.usage.tier])
    ensures IsDiskUsage(x) ==>
      && RowOf(sheet, x).eventName == DISK_METER
      && Emitted(sheet, x) < Value(RowOf(sheet, x))
    ensures !IsKeyValue(sheet, x) && !IsDiskUsage(x) ==> Emitted(sheet, x) == Value(RowOf(sheet, x))
  {
    hide HalfUp12, KeyValueCost;
    ScaledDiskIsSmaller(x.usage.quantity);
    NamesDiffer(x.usage);
  }

  lemma DifferentAreCounted(sheet: Sheet, x: Export)
    requires IsKeyValue(sheet, x) || IsDiskUsage(x)
    ensures IsCounted(RowOf(sheet, x))
  {
  }

  /** What is sent for an event beyond what is expected: for the cost meter, the cost less the
      seconds; for disk, never anything, and less as soon as there is disk usage. */
  lemma {:induction false} TotalsAgreeUnless(sheet: Sheet, xs: seq<Export>, event: string)
    ensures event == KEY_VALUE_METER ==>
      Sent(sheet, xs, event) - Total(RowsOf(sheet, xs), event)
      == KeyValueCosts(sheet, xs) - KeyValueSeconds(sheet, xs) as real
    ensures event == DISK_METER ==>
      && Sent(sheet, xs, event) <= Total(RowsOf(sheet, xs), event)
      && (Sent(sheet, xs, event) == Total(RowsOf(sheet, xs), event) <==> NoDiskUsage(xs))
    ensures event != KEY_VALUE_METER && event != DISK_METER ==>
      Sent(sheet, xs, event) == Total(RowsOf(sheet, xs), event)
  {
    hide Emitted, Value, RowOf, IsDiskUsage, IsKeyValue, IsCounted, KeyValueCost;
    if xs != [] {
      var n := |xs| - 1;
      var before, x := xs[..n], xs[n];
      assert RowsOf(sheet, xs)[..n] == RowsOf(sheet, before);
      TotalsAgreeUnless(sheet, before, event);
      assert NoDiskUsage(xs) <==> NoDiskUsage(before) && !IsDiskUsage(x) by {
        assert forall i :: 0 <= i < n ==> before[i] == xs[i];
      }
      if IsKeyValue(sheet, x) || IsDiskUsage(x) {
        DifferentAreCounted(sheet, x);
        KeyValueIsNotDisk(sheet, x);
      }
      if IsCounted(RowOf(sheet, x)) {
        RowsAgreeUnless(sheet, x);
      }
    }
  }

  lemma KeyValueIsNotDisk(sheet: Sheet, x: Export)
    ensures !(IsKeyValue(sheet, x) && IsDiskUsage(x))
  {
  }

  /** The provider reports, for exactly the events that rows feed, what it was sent. */
  ghost predicate AddsUp(sheet: Sheet, xs: seq<Export>, summaries: map<string, Decimal>) {
    && (forall e :: IsFed(RowsOf(sheet, xs), e) <==> e in summaries)
    && (forall e :: e in summaries ==> summaries[e] == Decimal(Sent(sheet, xs, e)))
  }

  /** An event nothing feeds has a total of nothing on both sides. */
  lemma {:induction false} UnfedIsNothing(sheet: Sheet, xs: seq<Export>, event: string)
    requires !IsFed(RowsOf(sheet, xs), event)
    ensures Sent(sheet, xs, event) == 0.0 && Total(RowsOf(sheet, xs), event) == 0.0
  {
    hide Emitted, Value, RowOf, Feeds;
    if xs != [] {
      var n := |xs| - 1;
      var rows, before := RowsOf(sheet, xs), RowsOf(sheet, xs[..n]);
      assert rows[..n] == before;
      assert !Feeds(rows[n], event);
      assert forall i :: 0 <= i < n ==> before[i] == rows[i];
      UnfedIsNothing(sheet, xs[..n], event);
    }
  }

  lemma AgreeingIsSending(sheet: Sheet, xs: seq<Export>, summaries: map<string, Decimal>, event: string)
    requires AddsUp(sheet, xs, summaries)
    ensures AgreesOn(RowsOf(sheet, xs), summaries, event)
       <==> Sent(sheet, xs, event) == Total(RowsOf(sheet, xs), event)
  {
    hide Total, Sent, IsFed, RowsOf;
    if !IsFed(RowsOf(sheet, xs), event) {
      UnfedIsNothing(sheet, xs, event);
    }
  }

  /** Against a provider that adds up exactly what it was sent, the comparison reports no
      quantity mismatch exactly when no emitted row is disk usage and the summed cost of the
      paid Key Value usage, in millionths of a dollar, happens to equal its summed seconds. */
  lemma FaithfulProviderMatchesUnless(sheet: Sheet, xs: seq<Export>, summaries: map<string, Decimal>)
    requires AddsUp(sheet, xs, summaries)
    ensures (forall p :: !IsMismatch(Expected(RowsOf(sheet, xs)), summaries, p))
       <==> NoDiskUsage(xs) && KeyValueCosts(sheet, xs) == KeyValueSeconds(sheet, xs) as real
  {
    hide IsMismatch, Expected, Total, Sent, NoDiskUsage, KeyValueCosts, KeyValueSeconds, IsFed, RowsOf, AgreesOn;
    var rows := RowsOf(sheet, xs);
    NoMismatch(rows, summaries);
    forall e
      ensures AgreesOn(rows, summaries, e) <==> Sent(sheet, xs, e) == Total(rows, e)
      ensures e != KEY_VALUE_METER && e != DISK_METER ==> Sent(sheet, xs, e) == Total(rows, e)
    {
      TotalsAgreeUnless(sheet, xs, e);
      AgreeingIsSending(sheet, xs, summaries, e);
    }
    TotalsAgreeUnless(sheet, xs, KEY_VALUE_METER);
    TotalsAgreeUnless(sheet, xs, DISK_METER);
  }

  // ----- Rates above one millionth of a dollar a second

  /** A second of every tier costs more than one millionth of a dollar, by more than rounding. */
  ghost predicate CostsMoreThanSeconds(sheet: Sheet) {
    forall tier :: tier in sheet.keyValueRates ==> sheet.keyValueRates[tier] >= 1.000001
  }

  ghost predicate NoKeyValueUsage(sheet: Sheet, xs: seq<Export>) {
    forall i :: 0 <= i < |xs| && IsKeyValue(sheet, xs[i]) ==> xs[i].usage.quantity == 0
  }

  lemma TimesGrows(n: nat, rate: real)
    requires rate >= 1.000001
    ensures Times(n as real, rate) >= n as real * 1.000001
    ensures n == 0 ==> Times(n as real, rate) == 0.0
  {
  }

  lemma CostIsMore(seconds: nat, rate: real)
    requires rate >= 1.000001
    ensures KeyValueCost(seconds, rate) >= seconds as real
    ensures KeyValueCost(seconds, rate) == seconds as real <==> seconds == 0
  {
    hide Times;
    var cost := Times(seconds as real, rate);
    TimesGrows(seconds, rate);
    HalfUpMeans(cost * 1000000.0, HalfUp(cost * 1000000.0));
  }

  lemma {:induction false} CostsAreMore(sheet: Sheet, xs: seq<Export>)
    requires CostsMoreThanSeconds(sheet)
    ensures KeyValueCosts(sheet, xs) >= KeyValueSeconds(sheet, xs) as real
    ensures KeyValueCosts(sheet, xs) == KeyValueSeconds(sheet, xs) as real <==> NoKeyValueUsage(sheet, xs)
  {
    hide KeyValueCost;
    if xs != [] {
      var n := |xs| - 1;
      var x := xs[n];
      assert forall i :: 0 <= i < n ==> xs[..n][i] == xs[i];
      CostsAreMore(sheet, xs[..n]);
      if IsKeyValue(sheet, x) {
        CostIsMore(x.usage.quantity, sheet.keyValueRates[x.usage.tier]);
      }
    }
  }

  /** At such rates any paid Key Value usage is a mismatch, as any disk usage is. */
  lemma AnySuchUsageMismatches(sheet: Sheet, xs: seq<Export>, summaries: map<string, Decimal>)
    requires AddsUp(sheet, xs, summaries) && CostsMoreThanSeconds(sheet)
    ensures (forall p :: !IsMismatch(Expected(RowsOf(sheet, xs)), summaries, p))
       <==> NoDiskUsage(xs) && NoKeyValueUsage(sheet, xs)
  {
    hide IsMismatch, Expected, NoDiskUsage, NoKeyValueUsage, KeyValueCosts, KeyValueSeconds, AddsUp, RowsOf;
    FaithfulProviderMatchesUnless(sheet, xs, summaries);
    CostsAreMore(sheet, xs);
  }

  // ----- Two hours

  /** One hour of one gigabyte of disk: the provider holds one, the comparison wants 3600. */
  lemma DiskHourMismatches(sheet: Sheet)
    ensures var x := Export(Usage("", "disk_gb_seconds", "", 3600), "emitted", "t", "");
            Emitted(sheet, x) == 1.0 && Value(RowOf(sheet, x)) == 3600.0
  {
    HalfUpMeans(SCALE, 1000000000000);
  }

  /** One hour of the starter tier: the provider holds its cost, the comparison wants 3600. */
  lemma KeyValueHourMismatches()
    ensures var sheet := Sheet({KEY_VALUE_METER}, map["starter" := 2.663622526636]);
            var x := Export(Usage("key_value", "instance_seconds", "starter", 3600), "emitted", "t", "");
            Emitted(sheet, x) == 9589.041096 && Value(RowOf(sheet, x)) == 3600.0
  {
    var cost := Times(3600.0, 2.663622526636) * 1000000.0;
    HalfUpMeans(cost, 9589041096);
  }
}
