/** What an accepted reconciliation says about money, and what its verdict does not depend on:
    scripts/stripe_billing_reconcile.py with the catalog prices of
    scripts/stripe-billing-setup.py. */
module BillingMoney {
  import opened Wrappers
  import opened Rounding
  import opened Reconcile
  import PriceSheet

  // ----- Re-basing conserves money

  /** The raw quantity behind an event. */
  function Raw(rows: seq<Row>, event: string): real {
    if rows == [] then 0.0
    else
      var row := rows[|rows| - 1];
      Raw(rows[..|rows| - 1], event) + if Feeds(row, event) && row.quantity.Decimal? then row.quantity.value else 0.0
  }

  function Count(rows: seq<Row>, event: string): nat {
    if rows == [] then 0
    else Count(rows[..|rows| - 1], event) + if Feeds(rows[|rows| - 1], event) then 1 else 0
  }

  /** Every row of the event has this kind, one that the comparison re-bases as it is priced. */
  ghost predicate AllOfKind(rows: seq<Row>, event: string, kind: Kind) {
    kind != DiskGbSeconds && forall i :: 0 <= i < |rows| && Feeds(rows[i], event) ==> rows[i].kind == kind
  }

  /** Cents per billed unit, for a rate in dollars per raw unit. */
  function PerUnit(kind: Kind, rate: real): real {
    rate * UnitsOf(kind) * 100.0
  }

  /** The catalog price of a billed unit. */
  function CatalogPrice(kind: Kind, rate: real): real {
    Q12(PerUnit(kind, rate))
  }

  /** The price sheet sells the re-based units at exactly these prices. */
  lemma SheetSellsAtCatalogPrice(tier: string, rate: real)
    ensures PriceSheet.Priced("bandwidth", tier, rate)
        == Some(PriceSheet.Dimension("egress_gib", CatalogPrice(EgressBytes, rate)))
    ensures PriceSheet.Priced("storage", tier, rate)
        == Some(PriceSheet.Dimension("storage_gb_hours", CatalogPrice(StorageGbSeconds, rate)))
    ensures PriceSheet.Priced("disk", tier, rate)
        == Some(PriceSheet.Dimension("disk_gb_hours", CatalogPrice(DiskGbSeconds, rate)))
    ensures PriceSheet.Priced("build", tier, rate)
        == Some(PriceSheet.Dimension("build_seconds", CatalogPrice(OtherKind, rate)))
  {
  }

  /** A raw quantity in billed units. */
  function InUnits(raw: real, kind: Kind): real {
    raw / UnitsOf(kind)
  }

  /** What rounding one row can add. */
  function RowSlack(kind: Kind): real {
    if kind == EgressBytes || kind == StorageGbSeconds then HALF_STEP else 0.0
  }

  lemma NormalizedIsClose(kind: Kind, value: real)
    requires kind != DiskGbSeconds
    ensures Abs(NormalizedValue(kind, value) - InUnits(value, kind)) <= RowSlack(kind)
  {
  }

  lemma NoUsage(kind: Kind)
    ensures InUnits(0.0, kind) == 0.0 && Times(0.0, RowSlack(kind)) == 0.0
    ensures RowSlack(kind) >= 0.0
  {
  }

  lemma OneMoreRow(raw: real, quantity: real, count: nat, kind: Kind)
    ensures InUnits(raw + quantity, kind) == InUnits(raw, kind) + InUnits(quantity, kind)
    ensures Times((count + 1) as real, RowSlack(kind)) == Times(count as real, RowSlack(kind)) + RowSlack(kind)
  {
  }

  lemma {:induction false} TotalIsClose(rows: seq<Row>, event: string, kind: Kind)
    requires AllOfKind(rows, event, kind)
    ensures Abs(Total(rows, event) - InUnits(Raw(rows, event), kind))
         <= Times(Count(rows, event) as real, RowSlack(kind))
  {
    hide NormalizedValue, IsCounted, InUnits, Times, UnitsOf;
    NoUsage(kind);
    if rows != [] {
      var n := |rows| - 1;
      var row := rows[n];
      assert forall i :: 0 <= i < n ==> rows[..n][i] == rows[i];
      TotalIsClose(rows[..n], event, kind);
      OneMoreRow(Raw(rows[..n], event), if row.quantity.Decimal? then row.quantity.value else 0.0,
                 Count(rows[..n], event), kind);
      if Feeds(row, event) {
        assert row.kind == kind;
        if row.quantity.Decimal? {
          NormalizedIsClose(kind, row.quantity.value);
        }
      }
    }
  }

  /** What the billed money can differ by from the raw usage at the raw rate: half a step per
      rounded row at the price, and half a step of price per billed unit. */
  function Slack(rows: seq<Row>, event: string, kind: Kind, rate: real): real {
    Times(Times(Count(rows, event) as real, RowSlack(kind)), Abs(CatalogPrice(kind, rate)))
    + Times(HALF_STEP, Abs(InUnits(Raw(rows, event), kind)))
  }

  lemma AbsProduct(a: real, b: real, c: real)
    requires Abs(a) <= c
    ensures Abs(Times(a, b)) <= Times(c, Abs(b))
  {
  }

  lemma Telescopes(total: real, q: real, price: real, perUnit: real)
    ensures Times(total, price) - Times(perUnit, q) == Times(total - q, price) + Times(price - perUnit, q)
  {
  }

  lemma UnitsCancel(raw: real, rate: real, kind: Kind)
    ensures Times(PerUnit(kind, rate), InUnits(raw, kind)) == Times(100.0 * rate, raw)
  {
  }

  /** A price rounded by at most half a step, for a quantity re-based within `c`. */
  lemma Rebased(total: real, raw: real, price: real, rate: real, kind: Kind, c: real)
    requires Abs(total - InUnits(raw, kind)) <= c && Abs(price - PerUnit(kind, rate)) <= HALF_STEP
    ensures Abs(Times(total, price) - Times(100.0 * rate, raw))
         <= Times(c, Abs(price)) + Times(HALF_STEP, Abs(InUnits(raw, kind)))
  {
    hide Times, PerUnit, InUnits;
    AbsProduct(total - InUnits(raw, kind), price, c);
    AbsProduct(price - PerUnit(kind, rate), InUnits(raw, kind), HALF_STEP);
    Telescopes(total, InUnits(raw, kind), price, PerUnit(kind, rate));
    UnitsCancel(raw, rate, kind);
  }

  lemma MoneyIsConserved(rows: seq<Row>, event: string, kind: Kind, rate: real)
    requires AllOfKind(rows, event, kind)
    ensures Abs(Times(Total(rows, event), CatalogPrice(kind, rate)) - Times(100.0 * rate, Raw(rows, event)))
         <= Slack(rows, event, kind, rate)
  {
    hide Total, Raw, Count, Q12, AllOfKind, RowSlack, Abs, Times, PerUnit, InUnits;
    TotalIsClose(rows, event, kind);
    Q12IsClose(PerUnit(kind, rate));
    Rebased(Total(rows, event), Raw(rows, event), CatalogPrice(kind, rate), rate, kind,
            Times(Count(rows, event) as real, RowSlack(kind)));
  }

  lemma ChargeIsClose(local: real, unitAmount: real)
    ensures Abs(Charge(local, unitAmount) - Times(local, unitAmount)) <= 0.5
  {
  }

  /** Every amount on an accepted invoice is within half a cent, plus the slack above, of the
      raw usage at the raw rate, and the provider's own total is the local one. */
  lemma AcceptedInvoiceIsFair(rows: seq<Row>, summaries: map<string, Decimal>, lines: seq<Line>, k: nat,
                              kind: Kind, rate: real)
    requires Audit(rows, summaries, lines)
    requires k < |lines| && IsFed(rows, lines[k].lookupKey) && AllOfKind(rows, lines[k].lookupKey, kind)
    requires lines[k].unitAmount == Some(Decimal(CatalogPrice(kind, rate)))
    ensures var event := lines[k].lookupKey;
            && ProviderValue(summaries, event) == Decimal(Total(rows, event))
            && lines[k].amount.Some? && lines[k].amount.value.Decimal?
            && Abs(lines[k].amount.value.value - Times(100.0 * rate, Raw(rows, event)))
               <= 0.5 + Slack(rows, event, kind, rate)
  {
    hide Total, Raw, Count, Q12, AllOfKind, Slack, CatalogPrice, IsFed, Charge, ProviderValue, Truncate, Times;
    var event, price := lines[k].lookupKey, CatalogPrice(kind, rate);
    FedIsNamed(rows, event);
    assert AgreesOn(rows, summaries, event);
    var i :| 0 <= i < |lines| && lines[i].lookupKey == event && LineAgrees(lines[i], Total(rows, event));
    assert LookupKeys(lines)[i] == LookupKeys(lines)[k];
    assert i == k;
    MoneyIsConserved(rows, event, kind, rate);
    ChargeIsClose(Total(rows, event), price);
    assert lines[k].unitAmount.value.value == price;
  }

  // ----- The verdict does not depend on the order of rows or lines

  lemma {:induction false} TotalAppend(a: seq<Row>, b: seq<Row>, event: string)
    ensures Total(a + b, event) == Total(a, event) + Total(b, event)
    decreases |b|
  {
    hide Value, Feeds;
    if b == [] {
      assert a + b == a;
    } else {
      var n := |b| - 1;
      assert (a + b)[..|a| + n] == a + b[..n];
      TotalAppend(a, b[..n], event);
    }
  }

  /** Where the first element of one arrangement is found in another. */
  lemma Partner<T>(a: seq<T>, b: seq<T>) returns (k: nat)
    requires a != [] && multiset(a) == multiset(b)
    ensures k < |b| && b[k] == a[0]
    ensures multiset(a[1..]) == multiset(b[..k] + b[k + 1..])
    ensures b == b[..k] + ([a[0]] + b[k + 1..])
  {
    assert a[0] in multiset(b);
    k :| 0 <= k < |b| && b[k] == a[0];
    assert b == b[..k] + ([a[0]] + b[k + 1..]);
    assert a == [a[0]] + a[1..];
    assert multiset(b) == multiset(b[..k]) + (multiset{a[0]} + multiset(b[k + 1..]));
    assert multiset(a) == multiset{a[0]} + multiset(a[1..]);
    assert multiset(b[..k] + b[k + 1..]) == multiset(b[..k]) + multiset(b[k + 1..]);
    assert multiset(a[1..]) == multiset(a) - multiset{a[0]};
    assert multiset(b[..k]) + multiset(b[k + 1..]) == multiset(b) - multiset{a[0]};
  }

  lemma {:induction false} TotalPermutes(a: seq<Row>, b: seq<Row>, event: string)
    requires multiset(a) == multiset(b)
    ensures Total(a, event) == Total(b, event)
    decreases |a|
  {
    hide Total;
    if a == [] {
      assert |multiset(b)| == 0;
    } else {
      var k := Partner(a, b);
      assert a == [a[0]] + a[1..];
      TotalAppend([a[0]], a[1..], event);
      TotalAppend(b[..k], [a[0]] + b[k + 1..], event);
      TotalAppend([a[0]], b[k + 1..], event);
      TotalAppend(b[..k], b[k + 1..], event);
      TotalPermutes(a[1..], b[..k] + b[k + 1..], event);
    }
  }

  function Map<T, U>(f: T -> U, s: seq<T>): (r: seq<U>)
    ensures |r| == |s| && forall i :: 0 <= i < |s| ==> r[i] == f(s[i])
  {
    seq(|s|, i requires 0 <= i < |s| => f(s[i]))
  }

  lemma MapAppend<T, U>(f: T -> U, a: seq<T>, b: seq<T>)
    ensures multiset(Map(f, a + b)) == multiset(Map(f, a)) + multiset(Map(f, b))
  {
    assert Map(f, a + b) == Map(f, a) + Map(f, b);
  }

  lemma {:induction false} MapPermutes<T, U>(f: T -> U, a: seq<T>, b: seq<T>)
    requires multiset(a) == multiset(b)
    ensures multiset(Map(f, a)) == multiset(Map(f, b))
    decreases |a|
  {
    if a == [] {
      assert |multiset(b)| == 0;
    } else {
      var k := Partner(a, b);
      assert a == [a[0]] + a[1..];
      MapPermutes(f, a[1..], b[..k] + b[k + 1..]);
      MapAppend(f, [a[0]], a[1..]);
      MapAppend(f, b[..k], [a[0]] + b[k + 1..]);
      MapAppend(f, [a[0]], b[k + 1..]);
      MapAppend(f, b[..k], b[k + 1..]);
    }
  }

  lemma DistinctPermutes(a: seq<string>, b: seq<string>)
    requires multiset(a) == multiset(b)
    ensures Distinct(a) <==> Distinct(b)
  {
    CountedOnce(a);
    CountedOnce(b);
    assert Counter(a) == Counter(b);
  }

  lemma SameMembers<T>(a: seq<T>, b: seq<T>)
    requires multiset(a) == multiset(b)
    ensures forall x :: x in a <==> x in b
  {
    forall x
      ensures x in a <==> x in b
    {
      assert x in a <==> x in multiset(a);
      assert x in b <==> x in multiset(b);
    }
  }

  lemma FedPermutes(a: seq<Row>, b: seq<Row>, event: string)
    requires multiset(a) == multiset(b)
    ensures IsFed(a, event) <==> IsFed(b, event)
  {
    SameMembers(a, b);
    if IsFed(a, event) {
      var i :| 0 <= i < |a| && Feeds(a[i], event);
      assert a[i] in b;
    }
    if IsFed(b, event) {
      var i :| 0 <= i < |b| && Feeds(b[i], event);
      assert b[i] in a;
    }
  }

  lemma LinePermutes(a: seq<Line>, b: seq<Line>, event: string, local: real)
    requires multiset(a) == multiset(b)
    ensures HasLine(a, event, local) <==> HasLine(b, event, local)
  {
    hide LineAgrees;
    SameMembers(a, b);
    if HasLine(a, event, local) {
      var i :| 0 <= i < |a| && a[i].lookupKey == event && LineAgrees(a[i], local);
      assert a[i] in b;
    }
    if HasLine(b, event, local) {
      var i :| 0 <= i < |b| && b[i].lookupKey == event && LineAgrees(b[i], local);
      assert b[i] in a;
    }
  }

  lemma NamesPermute(rows: seq<Row>, rows': seq<Row>, lines: seq<Line>, lines': seq<Line>)
    requires multiset(rows) == multiset(rows') && multiset(lines) == multiset(lines')
    ensures Distinct(TransactionIds(rows)) <==> Distinct(TransactionIds(rows'))
    ensures Distinct(LookupKeys(lines)) <==> Distinct(LookupKeys(lines'))
  {
    hide Distinct;
    var id, key := (row: Row) => row.transactionId, (line: Line) => line.lookupKey;
    MapPermutes(id, rows, rows');
    MapPermutes(key, lines, lines');
    assert TransactionIds(rows) == Map(id, rows) && TransactionIds(rows') == Map(id, rows');
    assert LookupKeys(lines) == Map(key, lines) && LookupKeys(lines') == Map(key, lines');
    DistinctPermutes(TransactionIds(rows), TransactionIds(rows'));
    DistinctPermutes(LookupKeys(lines), LookupKeys(lines'));
  }

  lemma AuditIgnoresOrder(rows: seq<Row>, rows': seq<Row>, summaries: map<string, Decimal>, lines: seq<Line>,
                          lines': seq<Line>)
    requires multiset(rows) == multiset(rows') && multiset(lines) == multiset(lines')
    ensures Audit(rows, summaries, lines) <==> Audit(rows', summaries, lines')
  {
    hide Total, IsFed, HasLine, Distinct, IsRefused, ProviderValue, TransactionIds, LookupKeys;
    NamesPermute(rows, rows', lines, lines');
    assert (forall i :: 0 <= i < |rows| ==> !IsRefused(rows[i]))
        <==> (forall i :: 0 <= i < |rows'| ==> !IsRefused(rows'[i])) by {
      SameMembers(rows, rows');
      assert (forall i :: 0 <= i < |rows| ==> !IsRefused(rows[i])) <==> forall row :: row in rows ==> !IsRefused(row);
      assert (forall i :: 0 <= i < |rows'| ==> !IsRefused(rows'[i]))
          <==> forall row :: row in rows' ==> !IsRefused(row);
    }
    forall e
      ensures IsFed(rows, e) <==> IsFed(rows', e)
      ensures Total(rows, e) == Total(rows', e)
      ensures HasLine(lines, e, Total(rows, e)) <==> HasLine(lines', e, Total(rows', e))
      ensures AgreesOn(rows, summaries, e) <==> AgreesOn(rows', summaries, e)
    {
      FedPermutes(rows, rows', e);
      TotalPermutes(rows, rows', e);
      LinePermutes(lines, lines', e, Total(rows, e));
    }
  }

  /** Whether the comparison can be made at all does not depend on the order of the rows either. */
  lemma ReadingIgnoresOrder(rows: seq<Row>, rows': seq<Row>, summaries: map<string, Decimal>, lines: seq<Line>)
    requires multiset(rows) == multiset(rows')
    ensures CanRead(rows, summaries, lines) <==> CanRead(rows', summaries, lines)
  {
    hide Expected, IsFed, ByKey, IsReadable, AllReadable, IsLineReadable;
    SameMembers(rows, rows');
    assert (forall i :: 0 <= i < |rows| ==> IsReadable(rows[i])) <==> forall row :: row in rows ==> IsReadable(row);
    assert (forall i :: 0 <= i < |rows'| ==> IsReadable(rows'[i])) <==> forall row :: row in rows' ==> IsReadable(row);
    forall e
      ensures e in Expected(rows) <==> e in Expected(rows')
    {
      FedPermutes(rows, rows', e);
      ExpectedIsTotal(rows, e);
      ExpectedIsTotal(rows', e);
    }
  }
}
