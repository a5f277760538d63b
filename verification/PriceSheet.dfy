/** The price sheet reader `parse_pricing` of scripts/stripe-billing-setup.py. */
module PriceSheet {
  import opened Wrappers
  import opened Rounding
  import opened SheetText

  /** One priced dimension: the meter's event name and the price of a unit in cents. */
  datatype Dimension = Dimension(eventName: string, cents: real)

  datatype Failure = BadRate

  const BYTES_PER_GIB := 1073741824.0
  const SECONDS_PER_HOUR := 3600.0
  const MICRO_USD_CENTS := 0.0001

  const AGENT_MODEL_COST_METER := "agent_model_cost_microusd"
  const KEY_VALUE_COST_METER := "key_value_cost_microusd"

  /** Kind-level meters that per-tier and re-based meters replace. */
  function Superseded(): seq<string> {
    ["instance_seconds", "egress_bytes", "storage_gb_seconds"]
  }

  /** The section a line stands in: the nearest heading above it. */
  function SectionAt(lines: seq<SheetLine>, n: nat): string
    requires n <= |lines|
  {
    if n == 0 then "" else if lines[n - 1].Section? then lines[n - 1].name else SectionAt(lines, n - 1)
  }

  /** The tier a line stands in: the nearest one above it in its own section, or none. */
  function TierAt(lines: seq<SheetLine>, n: nat): string
    requires n <= |lines|
  {
    if n == 0 || lines[n - 1].Section? then ""
    else if lines[n - 1].Tier? then lines[n - 1].tier
    else TierAt(lines, n - 1)
  }

  predicate IsPaid(tier: string) {
    tier != "" && tier != "free"
  }

  function CostMeter(event: string): Dimension {
    Dimension(event, Q12(MICRO_USD_CENTS))
  }

  function InstanceMeter(resource: string, tier: string, rate: real): Dimension {
    Dimension("instance_seconds." + resource + "." + tier, Q12(rate * 100.0))
  }

  /** What a rate in a section and a tier prices. */
  function Priced(section: string, tier: string, rate: real): Option<Dimension> {
    if section == "keyvalue" then if rate > 0.0 && IsPaid(tier) then Some(CostMeter(KEY_VALUE_COST_METER)) else None
    else if section == "compute" then
      if rate > 0.0 && IsPaid(tier) then Some(InstanceMeter("service", tier, rate)) else None
    else if section == "postgres" then
      if rate > 0.0 && IsPaid(tier) then Some(InstanceMeter("postgres", tier, rate)) else None
    else if section == "bandwidth" then Some(Dimension("egress_gib", Q12(rate * BYTES_PER_GIB * 100.0)))
    else if section == "build" then Some(Dimension("build_seconds", Q12(rate * 100.0)))
    else if section == "storage" then Some(Dimension("storage_gb_hours", Q12(rate * SECONDS_PER_HOUR * 100.0)))
    else if section == "disk" then Some(Dimension("disk_gb_hours", Q12(rate * SECONDS_PER_HOUR * 100.0)))
    else if section == "sandbox" then Some(Dimension("sandbox_compute_seconds", Q12(rate * 100.0)))
    else None
  }

  /** What line `n` prices on its own. */
  function PricedAt(lines: seq<SheetLine>, n: nat): Option<Dimension>
    requires n < |lines|
  {
    match lines[n]
    case Markup(Some(m)) =>
      if SectionAt(lines, n) == "agentModel" && m > 0.0 then Some(CostMeter(AGENT_MODEL_COST_METER)) else None
    case Rate(_, Some(r)) => Priced(SectionAt(lines, n), TierAt(lines, n), r)
    case _ => None
  }

  predicate IsKeyValue(d: Option<Dimension>) {
    d.Some? && d.value.eventName == KEY_VALUE_COST_METER
  }

  /** A Key Value price counts on the first line that gives one only. */
  ghost predicate Counts(lines: seq<SheetLine>, n: nat)
    requires n < |lines|
  {
    && PricedAt(lines, n).Some?
    && (IsKeyValue(PricedAt(lines, n)) ==> forall i :: 0 <= i < n ==> !IsKeyValue(PricedAt(lines, i)))
  }

  /** The dimensions of the first `n` lines, in order. */
  ghost function Dimensions(lines: seq<SheetLine>, n: nat): seq<Dimension>
    requires n <= |lines|
  {
    if n == 0 then []
    else Dimensions(lines, n - 1) + if Counts(lines, n - 1) then [PricedAt(lines, n - 1).value] else []
  }

  ghost predicate IsBad(lines: seq<SheetLine>, n: nat)
    requires n < |lines|
  {
    || (lines[n].Rate? && lines[n].rate.None?)
    || (lines[n].Markup? && lines[n].markup.None? && SectionAt(lines, n) == "agentModel")
  }

  predicate Names(dims: seq<Dimension>, event: string) {
    exists i :: 0 <= i < |dims| && dims[i].eventName == event
  }

  lemma NamesOneMore(dims: seq<Dimension>, d: Dimension, event: string)
    ensures Names(dims + [d], event) <==> Names(dims, event) || d.eventName == event
  {
    var more := dims + [d];
    assert more[|dims|] == d;
    assert forall i :: 0 <= i < |dims| ==> more[i] == dims[i];
    if Names(dims, event) {
      var i :| 0 <= i < |dims| && dims[i].eventName == event;
      assert more[i].eventName == event;
    }
  }

  /** The whole text, line by line; `read` is the reading of a decimal number. */
  method ParsePricing(text: seq<string>, read: string -> Option<real>) returns (r: Result<seq<Dimension>, Failure>)
    ensures
      var lines := Lines(text, read);
      && (r.Failure? <==> exists i :: 0 <= i < |lines| && IsBad(lines, i))
      && (r.Success? ==> r.value == Dimensions(lines, |lines|))
  {
    hide Priced, Classify, PricedAt, IsKeyValue, IsBad;
    ghost var lines := Lines(text, read);
    var section, tier := "", "";
    var dims: seq<Dimension> := [];
    for n := 0 to |text|
      invariant forall i :: 0 <= i < n ==> !IsBad(lines, i)
      invariant section == SectionAt(lines, n) && tier == TierAt(lines, n)
      invariant dims == Dimensions(lines, n)
      invariant Names(dims, KEY_VALUE_COST_METER) <==> exists i :: 0 <= i < n && IsKeyValue(PricedAt(lines, i))
    {
      var line := Classify(text[n], read);
      var priced := ReadLine(lines, n, section, tier, line);
      if priced.Failure? {
        return Failure(BadRate);
      }
      if line.Section? {
        section, tier := line.name, "";
      } else if line.Tier? {
        tier := line.tier;
      }
      var dim := priced.value;
      if dim.Some? && !(dim.value.eventName == KEY_VALUE_COST_METER && Names(dims, KEY_VALUE_COST_METER)) {
        NamesOneMore(dims, dim.value, KEY_VALUE_COST_METER);
        dims := dims + [dim.value];
      }
      KeyValueIsNamed(dim);
    }
    return Success(dims);
  }

  /** What one line prices in the section and the tier it stands in. */
  method ReadLine(ghost lines: seq<SheetLine>, ghost n: nat, section: string, tier: string, line: SheetLine)
    returns (r: Result<Option<Dimension>, Failure>)
    requires n < |lines| && line == lines[n] && section == SectionAt(lines, n) && tier == TierAt(lines, n)
    ensures r.Failure? <==> IsBad(lines, n)
    ensures r.Success? ==> r.value == PricedAt(lines, n)
  {
    hide Priced;
    if line.Markup? && section == "agentModel" {
      if line.markup.None? {
        return Failure(BadRate);
      }
      return Success(if line.markup.value > 0.0 then Some(CostMeter(AGENT_MODEL_COST_METER)) else None);
    }
    if line.Rate? {
      if line.rate.None? {
        return Failure(BadRate);
      }
      return Success(Priced(section, tier, line.rate.value));
    }
    return Success(None);
  }

  lemma KeyValueIsNamed(d: Option<Dimension>)
    ensures IsKeyValue(d) <==> d.Some? && d.value.eventName == KEY_VALUE_COST_METER
  {
  }

  // ----- What the sheet can and cannot price

  lemma PricedIsNew(section: string, tier: string, rate: real)
    requires Priced(section, tier, rate).Some?
    ensures Priced(section, tier, rate).value.eventName !in Superseded()
  {
  }

  /** No dimension bills on a meter that the setup run retires. */
  lemma {:induction false} NeverSuperseded(lines: seq<SheetLine>, n: nat, i: nat)
    requires n <= |lines| && i < |Dimensions(lines, n)|
    ensures Dimensions(lines, n)[i].eventName !in Superseded()
  {
    hide Priced, Superseded;
    if i < |Dimensions(lines, n - 1)| {
      NeverSuperseded(lines, n - 1, i);
    } else {
      var line := lines[n - 1];
      if line.Markup? {
        AgentModelIsNew();
      } else {
        PricedIsNew(SectionAt(lines, n - 1), TierAt(lines, n - 1), line.rate.value);
      }
    }
  }

  lemma AgentModelIsNew()
    ensures AGENT_MODEL_COST_METER !in Superseded()
  {
  }

  /** All Key Value tiers bill on one meter, named once. */
  lemma {:induction false} KeyValueOnce(lines: seq<SheetLine>, n: nat, i: nat, j: nat)
    requires n <= |lines| && i < j < |Dimensions(lines, n)|
    requires Dimensions(lines, n)[i].eventName == KEY_VALUE_COST_METER
    ensures Dimensions(lines, n)[j].eventName != KEY_VALUE_COST_METER
  {
    hide Priced;
    if j < |Dimensions(lines, n - 1)| {
      KeyValueOnce(lines, n - 1, i, j);
    } else {
      var k := FromALine(lines, n - 1, i);
    }
  }

  /** Every dimension comes from a line that prices it. */
  lemma {:induction false} FromALine(lines: seq<SheetLine>, n: nat, i: nat) returns (k: nat)
    requires n <= |lines| && i < |Dimensions(lines, n)|
    ensures k < n && PricedAt(lines, k) == Some(Dimensions(lines, n)[i])
  {
    hide PricedAt, Counts;
    if i < |Dimensions(lines, n - 1)| {
      k := FromALine(lines, n - 1, i);
    } else {
      k := n - 1;
      assert Counts(lines, k);
      CountedIsPriced(lines, k);
    }
  }

  lemma CountedIsPriced(lines: seq<SheetLine>, n: nat)
    requires n < |lines| && Counts(lines, n)
    ensures PricedAt(lines, n).Some?
  {
  }
}
