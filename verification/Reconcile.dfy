/** `compare` of scripts/stripe_billing_reconcile.py: local usage rows against the provider's
    meter totals and invoice lines. Decimals are exact. */
module Reconcile {
  import opened Wrappers
  import opened Rounding

  /** A decimal field: `Malformed` stands for everything whose reading raises. */
  datatype Decimal = Malformed | Decimal(value: real)

  datatype Kind = EgressBytes | StorageGbSeconds | DiskGbSeconds | OtherKind | NoKind

  datatype Row = Row(state: string, transactionId: string, eventName: string, errorCode: string,
                     kind: Kind, quantity: Decimal)

  datatype Line = Line(lookupKey: string, quantity: Option<Decimal>, amount: Option<Decimal>,
                       unitAmount: Option<Decimal>, currency: string)

  datatype Problem =
    | RefusedRow(state: string, transactionId: string, eventName: string, errorCode: string)
    | DuplicateTransaction(transactionId: string)
    | QuantityMismatch(eventName: string)
    | DuplicateLine(lookupKey: string)
    | MissingLine(eventName: string)
    | LineQuantityMismatch(eventName: string)
    | AmountMissing(eventName: string)
    | AmountMismatch(eventName: string)

  datatype Dimension = Dimension(eventName: string, local: real, provider: real, matched: bool)

  datatype Report = Report(states: multiset<string>, dimensions: seq<Dimension>, problems: seq<Problem>, ok: bool)

  datatype Failure = Unreadable

  // ----- Rows

  /** Raw units in one billed unit. */
  function UnitsOf(kind: Kind): real {
    match kind
    case EgressBytes => 1073741824.0
    case StorageGbSeconds => 3600.0
    case DiskGbSeconds => 3600.0
    case _ => 1.0
  }

  function NormalizedValue(kind: Kind, value: real): real {
    match kind
    case EgressBytes => HalfUp12(value / UnitsOf(kind))
    case StorageGbSeconds => HalfUp12(value / UnitsOf(kind))
    case _ => value
  }

  predicate IsRefused(row: Row) {
    row.state == "rejected" || row.state == "ambiguous"
  }

  predicate IsCounted(row: Row) {
    row.state == "emitted" && row.eventName != "" && row.eventName != "local_zero_rate"
  }

  predicate IsReadable(row: Row) {
    IsCounted(row) ==> row.quantity.Decimal? && row.kind != NoKind
  }

  predicate Feeds(row: Row, event: string) {
    IsCounted(row) && row.eventName == event
  }

  function Value(row: Row): real {
    if row.quantity.Decimal? then NormalizedValue(row.kind, row.quantity.value) else 0.0
  }

  function Get(m: map<string, real>, key: string): real {
    if key in m then m[key] else 0.0
  }

  /** The accumulated totals, one row after the other. */
  function Expected(rows: seq<Row>): map<string, real> {
    if rows == [] then map[]
    else
      var row, before := rows[|rows| - 1], Expected(rows[..|rows| - 1]);
      if IsCounted(row) then before[row.eventName := Get(before, row.eventName) + Value(row)] else before
  }

  function ProblemOf(row: Row): Problem {
    RefusedRow(row.state, row.transactionId, row.eventName, row.errorCode)
  }

  function States(rows: seq<Row>): (r: seq<string>)
    ensures |r| == |rows| && forall i :: 0 <= i < |rows| ==> r[i] == rows[i].state
  {
    seq(|rows|, i requires 0 <= i < |rows| => rows[i].state)
  }

  function TransactionIds(rows: seq<Row>): (r: seq<string>)
    ensures |r| == |rows| && forall i :: 0 <= i < |rows| ==> r[i] == rows[i].transactionId
  {
    seq(|rows|, i requires 0 <= i < |rows| => rows[i].transactionId)
  }

  function LookupKeys(lines: seq<Line>): (r: seq<string>)
    ensures |r| == |lines| && forall i :: 0 <= i < |lines| ==> r[i] == lines[i].lookupKey
  {
    seq(|lines|, i requires 0 <= i < |lines| => lines[i].lookupKey)
  }

  /** How often each non-empty name occurs. */
  function Counter(names: seq<string>): multiset<string> {
    multiset(names)["" := 0]
  }

  lemma CounterExtends(names: seq<string>, name: string)
    ensures Counter(names + [name]) == if name == "" then Counter(names) else Counter(names) + multiset{name}
  {
  }

  datatype Tally = Tally(states: multiset<string>, transactions: multiset<string>,
                         expected: map<string, real>, problems: seq<Problem>)

  ghost predicate IsRefusal(rows: seq<Row>, p: Problem) {
    exists i :: 0 <= i < |rows| && IsRefused(rows[i]) && p == ProblemOf(rows[i])
  }

  /** Exactly the refused rows are reported. */
  ghost predicate AreRefusals(rows: seq<Row>, problems: seq<Problem>) {
    forall p :: p in problems <==> IsRefusal(rows, p)
  }

  lemma MoreRefusals(rows: seq<Row>, n: nat, problems: seq<Problem>)
    requires n < |rows| && AreRefusals(rows[..n], problems)
    ensures AreRefusals(rows[..n + 1], if IsRefused(rows[n]) then problems + [ProblemOf(rows[n])] else problems)
  {
  }

  /** The first loop. */
  method ReadRows(rows: seq<Row>) returns (r: Result<Tally, Failure>)
    ensures r.Failure? <==> exists i :: 0 <= i < |rows| && !IsReadable(rows[i])
    ensures r.Success? ==> r.value.states == multiset(States(rows))
    ensures r.Success? ==> r.value.transactions == Counter(TransactionIds(rows))
    ensures r.Success? ==> r.value.expected == Expected(rows)
    ensures r.Success? ==> AreRefusals(rows, r.value.problems)
  {
    hide NormalizedValue, AreRefusals, Expected, Counter, States, TransactionIds, Value, Get;
    var states, transactions := multiset{}, multiset{};
    var expected: map<string, real> := map[];
    var problems: seq<Problem> := [];
    NothingRead();
    for n := 0 to |rows|
      invariant forall i :: 0 <= i < n ==> IsReadable(rows[i])
      invariant states == multiset(States(rows[..n]))
      invariant transactions == Counter(TransactionIds(rows[..n]))
      invariant expected == Expected(rows[..n])
      invariant AreRefusals(rows[..n], problems)
    {
      var row := rows[n];
      ReadOneMore(rows, n);
      MoreRefusals(rows, n, problems);
      states := states + multiset{row.state};
      if row.transactionId != "" {
        transactions := transactions + multiset{row.transactionId};
      }
      if IsRefused(row) {
        problems := problems + [ProblemOf(row)];
      } else if IsCounted(row) {
        if !IsReadable(row) {
          return Failure(Unreadable);
        }
        expected := expected[row.eventName := Get(expected, row.eventName) + Value(row)];
      }
    }
    assert rows[..|rows|] == rows;
    return Success(Tally(states, transactions, expected, problems));
  }

  lemma NothingRead()
    ensures multiset(States([])) == multiset{}
    ensures Counter(TransactionIds([])) == multiset{}
    ensures Expected([]) == map[]
    ensures AreRefusals([], [])
  {
  }

  lemma ReadOneMore(rows: seq<Row>, n: nat)
    requires n < |rows|
    ensures multiset(States(rows[..n + 1])) == multiset(States(rows[..n])) + multiset{rows[n].state}
    ensures Counter(TransactionIds(rows[..n + 1]))
         == var before := Counter(TransactionIds(rows[..n]));
            if rows[n].transactionId == "" then before else before + multiset{rows[n].transactionId}
    ensures Expected(rows[..n + 1])
         == var before := Expected(rows[..n]);
            if IsCounted(rows[n])
            then before[rows[n].eventName := Get(before, rows[n].eventName) + Value(rows[n])] else before
  {
    hide Value, IsCounted, Counter;
    var before, after, row := rows[..n], rows[..n + 1], rows[n];
    assert after == before + [row];
    assert after[..n] == before && after[n] == row;
    assert States(after) == States(before) + [row.state];
    assert TransactionIds(after) == TransactionIds(before) + [row.transactionId];
    CounterExtends(TransactionIds(before), row.transactionId);
  }

  // ----- Totals, lines and the report

  /** The second loop: transaction ids used more than once. */
  ghost predicate IsRepeat(transactions: multiset<string>, p: Problem) {
    p.DuplicateTransaction? && transactions[p.transactionId] > 1
  }

  method CheckTransactions(transactions: multiset<string>) returns (problems: seq<Problem>)
    ensures forall p :: p in problems <==> IsRepeat(transactions, p)
  {
    problems := [];
    var todo := transactions;
    while todo != multiset{}
      invariant forall t :: todo[t] == 0 || todo[t] == transactions[t]
      invariant forall p :: p in problems <==> IsRepeat(transactions, p) && todo[p.transactionId] == 0
    {
      var id :| id in todo;
      if todo[id] > 1 {
        problems := problems + [DuplicateTransaction(id)];
      }
      todo := todo[id := 0];
    }
  }

  function ProviderValue(summaries: map<string, Decimal>, event: string): Decimal {
    if event in summaries then summaries[event] else Decimal(0.0)
  }

  ghost predicate AllReadable(summaries: map<string, Decimal>) {
    forall e :: e in summaries ==> summaries[e].Decimal?
  }

  function DimensionOf(expected: map<string, real>, summaries: map<string, Decimal>, event: string): Dimension
    requires ProviderValue(summaries, event).Decimal?
  {
    var local, provider := Get(expected, event), ProviderValue(summaries, event).value;
    Dimension(event, local, provider, provider == local)
  }

  predicate IsMismatch(expected: map<string, real>, summaries: map<string, Decimal>, p: Problem) {
    && p.QuantityMismatch?
    && p.eventName in expected.Keys + summaries.Keys
    && ProviderValue(summaries, p.eventName) != Decimal(Get(expected, p.eventName))
  }

  ghost predicate AreDimensions(expected: map<string, real>, summaries: map<string, Decimal>, names: set<string>,
                                dimensions: seq<Dimension>)
    requires AllReadable(summaries)
  {
    forall d :: d in dimensions <==> d.eventName in names && d == DimensionOf(expected, summaries, d.eventName)
  }

  /** The third loop: one dimension for every event known to either side. */
  method CheckDimensions(expected: map<string, real>, summaries: map<string, Decimal>)
    returns (r: Result<seq<Dimension>, Failure>, problems: seq<Problem>)
    ensures r.Failure? <==> !AllReadable(summaries)
    ensures r.Success? ==> AreDimensions(expected, summaries, expected.Keys + summaries.Keys, r.value)
    ensures r.Success? ==> forall p :: p in problems <==> IsMismatch(expected, summaries, p)
    ensures r.Success? ==> (problems == [] <==> forall d :: d in r.value ==> d.matched)
  {
    var names := expected.Keys + summaries.Keys;
    var todo := names;
    var dimensions: seq<Dimension> := [];
    problems := [];
    while todo != {}
      invariant todo <= names
      invariant forall e :: e in names - todo ==> ProviderValue(summaries, e).Decimal?
      invariant forall d :: d in dimensions <==>
        d.eventName in names - todo && d == DimensionOf(expected, summaries, d.eventName)
      invariant forall p :: p in problems <==> IsMismatch(expected, summaries, p) && p.eventName !in todo
      invariant problems == [] <==> forall d :: d in dimensions ==> d.matched
    {
      var event :| event in todo;
      if ProviderValue(summaries, event).Malformed? {
        return Failure(Unreadable), [];
      }
      var dimension := DimensionOf(expected, summaries, event);
      dimensions := dimensions + [dimension];
      if !dimension.matched {
        problems := problems + [QuantityMismatch(event)];
      }
      todo := todo - {event};
    }
    assert forall e :: e in summaries ==> e in names && ProviderValue(summaries, e).Decimal?;
    r := Success(dimensions);
  }

  ghost predicate IsDoubledLine(keys: multiset<string>, p: Problem) {
    p.DuplicateLine? && keys[p.lookupKey] > 1
  }

  /** The count over the invoice lines that have a lookup key. */
  method CheckLookupKeys(lines: seq<Line>) returns (problems: seq<Problem>)
    ensures forall p :: p in problems <==> IsDoubledLine(Counter(LookupKeys(lines)), p)
  {
    var keys := Counter(LookupKeys(lines));
    problems := [];
    var todo := keys;
    while todo != multiset{}
      invariant forall k :: todo[k] == 0 || todo[k] == keys[k]
      invariant forall p :: p in problems <==> IsDoubledLine(keys, p) && todo[p.lookupKey] == 0
    {
      var key :| key in todo;
      if todo[key] > 1 {
        problems := problems + [DuplicateLine(key)];
      }
      todo := todo[key := 0];
    }
  }

  /** The lines by lookup key: the last one of a key stays. */
  function ByKey(lines: seq<Line>): map<string, Line> {
    if lines == [] then map[]
    else
      var line, before := lines[|lines| - 1], ByKey(lines[..|lines| - 1]);
      if line.lookupKey != "" then before[line.lookupKey := line] else before
  }

  predicate IsUnpriced(line: Line) {
    line.amount.None? || line.unitAmount.None? || line.currency == ""
  }

  predicate IsLineReadable(line: Line) {
    && (line.quantity.Some? ==> line.quantity.value.Decimal?)
    && (!IsUnpriced(line) ==> line.amount.value.Decimal? && line.unitAmount.value.Decimal?)
  }

  predicate QuantityAgrees(line: Line, local: real) {
    line.quantity.Some? && line.quantity.value.Decimal? && line.quantity.value.value == Truncate(local) as real
  }

  /** The whole cents for a quantity at a price. */
  function Charge(local: real, unitAmount: real): real {
    HalfUp(Times(local, unitAmount)) as real
  }

  predicate AmountAgrees(line: Line, local: real)
    requires !IsUnpriced(line) && IsLineReadable(line)
  {
    line.amount.value.value == Charge(local, line.unitAmount.value.value)
  }

  /** What the fourth loop reports about one event. */
  predicate IsLineProblem(expected: map<string, real>, lines: map<string, Line>, event: string, p: Problem) {
    && event in expected
    && if event !in lines then p == MissingLine(event)
       else
         var line, local := lines[event], expected[event];
         || (p == LineQuantityMismatch(event) && !QuantityAgrees(line, local))
         || (p == AmountMissing(event) && IsUnpriced(line))
         || (p == AmountMismatch(event) && !IsUnpriced(line) && IsLineReadable(line) && !AmountAgrees(line, local))
  }

  method CheckLine(expected: map<string, real>, lines: map<string, Line>, event: string)
    returns (r: Result<seq<Problem>, Failure>)
    requires event in expected
    ensures r.Failure? <==> event in lines && !IsLineReadable(lines[event])
    ensures r.Success? ==> forall p :: p in r.value <==> IsLineProblem(expected, lines, event, p)
  {
    hide Truncate, Charge;
    if event !in lines {
      return Success([MissingLine(event)]);
    }
    var line, local := lines[event], expected[event];
    var problems: seq<Problem> := [];
    if line.quantity.Some? && line.quantity.value.Malformed? {
      return Failure(Unreadable);
    }
    if line.quantity.None? || line.quantity.value.value != Truncate(local) as real {
      problems := problems + [LineQuantityMismatch(event)];
    }
    if IsUnpriced(line) {
      problems := problems + [AmountMissing(event)];
    } else if line.amount.value.Malformed? || line.unitAmount.value.Malformed? {
      return Failure(Unreadable);
    } else if line.amount.value.value != Charge(local, line.unitAmount.value.value) {
      problems := problems + [AmountMismatch(event)];
    }
    return Success(problems);
  }

  ghost predicate ReadsLines(expected: map<string, real>, lines: map<string, Line>) {
    forall e :: e in expected && e in lines ==> IsLineReadable(lines[e])
  }

  ghost predicate IsInvoiceProblem(expected: map<string, real>, lines: map<string, Line>, p: Problem) {
    exists e :: e in expected && IsLineProblem(expected, lines, e, p)
  }

  /** The fourth loop. */
  method CheckInvoice(expected: map<string, real>, lines: map<string, Line>)
    returns (r: Result<seq<Problem>, Failure>)
    ensures r.Failure? <==> !ReadsLines(expected, lines)
    ensures r.Success? ==> forall p :: p in r.value <==> IsInvoiceProblem(expected, lines, p)
  {
    hide IsLineProblem, IsLineReadable;
    var todo := expected.Keys;
    var problems: seq<Problem> := [];
    while todo != {}
      invariant todo <= expected.Keys
      invariant forall e :: e in expected && e !in todo && e in lines ==> IsLineReadable(lines[e])
      invariant forall p :: p in problems <==>
        exists e :: e in expected && e !in todo && IsLineProblem(expected, lines, e, p)
    {
      var event :| event in todo;
      var found := CheckLine(expected, lines, event);
      if found.Failure? {
        return Failure(Unreadable);
      }
      problems := problems + found.value;
      todo := todo - {event};
    }
    return Success(problems);
  }

  ghost predicate CanRead(rows: seq<Row>, summaries: map<string, Decimal>, lines: seq<Line>) {
    && (forall i :: 0 <= i < |rows| ==> IsReadable(rows[i]))
    && AllReadable(summaries)
    && ReadsLines(Expected(rows), ByKey(lines))
  }

  ghost predicate IsProblem(rows: seq<Row>, summaries: map<string, Decimal>, lines: seq<Line>, p: Problem) {
    || IsRefusal(rows, p)
    || IsRepeat(Counter(TransactionIds(rows)), p)
    || IsMismatch(Expected(rows), summaries, p)
    || IsDoubledLine(Counter(LookupKeys(lines)), p)
    || IsInvoiceProblem(Expected(rows), ByKey(lines), p)
  }

  method BuildByKey(lines: seq<Line>) returns (byKey: map<string, Line>)
    ensures byKey == ByKey(lines)
  {
    byKey := map[];
    for n := 0 to |lines|
      invariant byKey == ByKey(lines[..n])
    {
      assert lines[..n + 1][..n] == lines[..n];
      if lines[n].lookupKey != "" {
        byKey := byKey[lines[n].lookupKey := lines[n]];
      }
    }
    assert lines[..|lines|] == lines;
  }

  method Compare(rows: seq<Row>, summaries: map<string, Decimal>, lines: seq<Line>)
    returns (r: Result<Report, Failure>)
    ensures r.Success? <==> CanRead(rows, summaries, lines)
    ensures r.Success? ==> forall p :: p in r.value.problems <==> IsProblem(rows, summaries, lines, p)
    ensures r.Success? ==>
      AreDimensions(Expected(rows), summaries, Expected(rows).Keys + summaries.Keys, r.value.dimensions)
    ensures r.Success? ==> r.value.states == multiset(States(rows))
    ensures r.Success? ==> (r.value.ok <==> Audit(rows, summaries, lines))
  {
    hide IsReadable, Expected, ByKey, States, TransactionIds, LookupKeys, Counter, AllReadable, ReadsLines;
    hide IsRefusal, IsRepeat, IsMismatch, IsDoubledLine, IsInvoiceProblem, AreDimensions, Audit, IsProblem;
    var read := ReadRows(rows);
    if read.Failure? {
      return Failure(Unreadable);
    }
    var tally := read.value;
    var repeats := CheckTransactions(tally.transactions);
    var dimensions, mismatches := CheckDimensions(tally.expected, summaries);
    if dimensions.Failure? {
      return Failure(Unreadable);
    }
    var doubled := CheckLookupKeys(lines);
    var byKey := BuildByKey(lines);
    var invoice := CheckInvoice(tally.expected, byKey);
    if invoice.Failure? {
      return Failure(Unreadable);
    }
    var problems := tally.problems + repeats + mismatches + doubled + invoice.value;
    var ok := problems == [] && forall d :: d in dimensions.value ==> d.matched;
    ProblemsCollected(rows, summaries, lines, tally.problems, repeats, mismatches, doubled, invoice.value);
    NoProblemIsAudit(rows, summaries, lines, problems);
    return Success(Report(tally.states, dimensions.value, problems, ok));
  }

  lemma ProblemsCollected(rows: seq<Row>, summaries: map<string, Decimal>, lines: seq<Line>, refusals: seq<Problem>,
                          repeats: seq<Problem>, mismatches: seq<Problem>, doubled: seq<Problem>, invoice: seq<Problem>)
    requires AreRefusals(rows, refusals)
    requires forall p :: p in repeats <==> IsRepeat(Counter(TransactionIds(rows)), p)
    requires forall p :: p in mismatches <==> IsMismatch(Expected(rows), summaries, p)
    requires forall p :: p in doubled <==> IsDoubledLine(Counter(LookupKeys(lines)), p)
    requires forall p :: p in invoice <==> IsInvoiceProblem(Expected(rows), ByKey(lines), p)
    ensures forall p ::
              p in refusals + repeats + mismatches + doubled + invoice <==> IsProblem(rows, summaries, lines, p)
  {
  }

  // ----- The audit the verdict stands for

  ghost predicate IsFed(rows: seq<Row>, event: string) {
    exists i :: 0 <= i < |rows| && Feeds(rows[i], event)
  }

  /** The emitted quantity of an event, in billed units. */
  function Total(rows: seq<Row>, event: string): real {
    if rows == [] then 0.0
    else
      var row := rows[|rows| - 1];
      Total(rows[..|rows| - 1], event) + if Feeds(row, event) then Value(row) else 0.0
  }

  ghost predicate Distinct(names: seq<string>) {
    forall i, j :: 0 <= i < j < |names| && names[i] != "" ==> names[i] != names[j]
  }

  predicate LineAgrees(line: Line, local: real) {
    IsLineReadable(line) && !IsUnpriced(line) && QuantityAgrees(line, local) && AmountAgrees(line, local)
  }

  ghost predicate HasLine(lines: seq<Line>, event: string, local: real) {
    exists i :: 0 <= i < |lines| && lines[i].lookupKey == event && LineAgrees(lines[i], local)
  }

  /** For an event of either side, the provider has what was emitted. */
  ghost predicate AgreesOn(rows: seq<Row>, summaries: map<string, Decimal>, event: string) {
    IsFed(rows, event) || event in summaries ==> ProviderValue(summaries, event) == Decimal(Total(rows, event))
  }

  ghost predicate Audit(rows: seq<Row>, summaries: map<string, Decimal>, lines: seq<Line>) {
    && (forall i :: 0 <= i < |rows| ==> !IsRefused(rows[i]))
    && Distinct(TransactionIds(rows))
    && Distinct(LookupKeys(lines))
    && (forall e :: AgreesOn(rows, summaries, e))
    && (forall e :: IsFed(rows, e) ==> HasLine(lines, e, Total(rows, e)))
  }

  /** The accumulator holds the total of exactly the events that rows feed. */
  lemma {:induction false} ExpectedIsTotal(rows: seq<Row>, event: string)
    ensures event in Expected(rows) <==> IsFed(rows, event)
    ensures Get(Expected(rows), event) == Total(rows, event)
  {
    hide Value, IsCounted;
    if rows != [] {
      var n := |rows| - 1;
      ExpectedIsTotal(rows[..n], event);
      assert forall i :: 0 <= i < n ==> rows[..n][i] == rows[i];
      if IsFed(rows[..n], event) {
        var i :| 0 <= i < n && Feeds(rows[..n][i], event);
        assert Feeds(rows[i], event);
      }
      if IsFed(rows, event) && !Feeds(rows[n], event) {
        var i :| 0 <= i < |rows| && Feeds(rows[i], event);
        assert Feeds(rows[..n][i], event);
      }
    }
  }

  lemma {:induction false} CountedOnce(names: seq<string>)
    ensures Distinct(names) <==> forall x :: Counter(names)[x] <= 1
  {
    if names != [] {
      var n := |names| - 1;
      var front, last := names[..n], names[n];
      assert names == front + [last];
      CounterExtends(front, last);
      CountedOnce(front);
      OccursInFront(names, last);
      if Distinct(names) {
        assert forall x :: Counter(front)[x] <= 1;
      } else if Distinct(front) {
        assert Counter(names)[last] > 1;
      } else {
        var x :| Counter(front)[x] > 1;
        assert Counter(names)[x] > 1;
      }
    }
  }

  lemma OccursInFront(names: seq<string>, last: string)
    requires names != [] && names[|names| - 1] == last
    ensures Distinct(names) <==> Distinct(names[..|names| - 1]) && Counter(names[..|names| - 1])[last] == 0
  {
  }

  ghost predicate IsLastOf(lines: seq<Line>, key: string, i: int) {
    && 0 <= i < |lines|
    && lines[i].lookupKey == key
    && forall j :: i < j < |lines| ==> lines[j].lookupKey != key
  }

  ghost predicate HasKey(lines: seq<Line>, key: string) {
    exists i :: 0 <= i < |lines| && lines[i].lookupKey == key
  }

  /** The line looked up for a key is the last one that has it; there is none only for the
      empty key and a key that no line has. */
  lemma {:induction false} ByKeyIsLast(lines: seq<Line>, key: string)
    ensures key in ByKey(lines) <==> key != "" && HasKey(lines, key)
    ensures key in ByKey(lines) ==> exists i :: IsLastOf(lines, key, i) && ByKey(lines)[key] == lines[i]
  {
    if lines != [] {
      var n := |lines| - 1;
      var front := lines[..n];
      ByKeyIsLast(front, key);
      OneMoreKey(lines, key);
      hide HasKey;
      if lines[n].lookupKey == key {
        assert IsLastOf(lines, key, n);
      } else if key in ByKey(lines) {
        var i :| IsLastOf(front, key, i) && ByKey(front)[key] == front[i];
        LastStays(lines, key, i);
        assert ByKey(lines)[key] == lines[i];
      }
    }
  }

  lemma OneMoreKey(lines: seq<Line>, key: string)
    requires lines != []
    ensures HasKey(lines, key) <==> HasKey(lines[..|lines| - 1], key) || lines[|lines| - 1].lookupKey == key
  {
    var n := |lines| - 1;
    forall i | 0 <= i < n
      ensures lines[..n][i] == lines[i]
    {
    }
    if HasKey(lines[..n], key) {
      var i :| 0 <= i < n && lines[..n][i].lookupKey == key;
      assert lines[i].lookupKey == key;
    }
  }

  lemma LastStays(lines: seq<Line>, key: string, i: int)
    requires lines != [] && lines[|lines| - 1].lookupKey != key && IsLastOf(lines[..|lines| - 1], key, i)
    ensures IsLastOf(lines, key, i)
  {
    forall j | i < j < |lines|
      ensures lines[j].lookupKey != key
    {
      if j < |lines| - 1 {
        assert lines[j] == lines[..|lines| - 1][j];
      }
    }
  }

  lemma NoRefusal(rows: seq<Row>)
    ensures (forall p :: !IsRefusal(rows, p)) <==> forall i :: 0 <= i < |rows| ==> !IsRefused(rows[i])
  {
    forall i | 0 <= i < |rows| && IsRefused(rows[i])
      ensures IsRefusal(rows, ProblemOf(rows[i]))
    {
    }
  }

  lemma NoRepeat(names: seq<string>)
    ensures (forall p :: !IsRepeat(Counter(names), p)) <==> Distinct(names)
    ensures (forall p :: !IsDoubledLine(Counter(names), p)) <==> Distinct(names)
  {
    hide Counter, Distinct;
    CountedOnce(names);
    forall x | Counter(names)[x] > 1
      ensures IsRepeat(Counter(names), DuplicateTransaction(x)) && IsDoubledLine(Counter(names), DuplicateLine(x))
    {
    }
  }

  lemma NoMismatch(rows: seq<Row>, summaries: map<string, Decimal>)
    ensures (forall p :: !IsMismatch(Expected(rows), summaries, p)) <==> forall e :: AgreesOn(rows, summaries, e)
  {
    hide IsMismatch, Expected, AgreesOn;
    if forall p :: !IsMismatch(Expected(rows), summaries, p) {
      forall e
        ensures AgreesOn(rows, summaries, e)
      {
        MismatchIsDisagreement(rows, summaries, e);
        assert !IsMismatch(Expected(rows), summaries, QuantityMismatch(e));
      }
    } else {
      var p :| IsMismatch(Expected(rows), summaries, p);
      MismatchHasEvent(Expected(rows), summaries, p);
      MismatchIsDisagreement(rows, summaries, p.eventName);
      assert !AgreesOn(rows, summaries, p.eventName);
    }
  }

  lemma MismatchIsDisagreement(rows: seq<Row>, summaries: map<string, Decimal>, event: string)
    ensures IsMismatch(Expected(rows), summaries, QuantityMismatch(event)) <==> !AgreesOn(rows, summaries, event)
  {
    hide Expected, Total, IsFed, Get, ProviderValue;
    ExpectedIsTotal(rows, event);
  }

  lemma MismatchHasEvent(expected: map<string, real>, summaries: map<string, Decimal>, p: Problem)
    requires IsMismatch(expected, summaries, p)
    ensures p == QuantityMismatch(p.eventName)
  {
  }

  /** With distinct keys, the line looked up for an event is the one that has its key. */
  lemma TheLine(lines: seq<Line>, event: string, local: real)
    requires Distinct(LookupKeys(lines)) && event != ""
    ensures HasLine(lines, event, local) <==> event in ByKey(lines) && LineAgrees(ByKey(lines)[event], local)
  {
  }

  lemma NoLineProblem(expected: map<string, real>, lines: map<string, Line>, event: string)
    requires event in expected && (event in lines ==> IsLineReadable(lines[event]))
    ensures (forall p :: !IsLineProblem(expected, lines, event, p))
       <==> event in lines && LineAgrees(lines[event], expected[event])
  {
    hide QuantityAgrees, AmountAgrees, IsUnpriced, IsLineReadable;
    assert event !in lines ==> IsLineProblem(expected, lines, event, MissingLine(event));
    if event in lines {
      var line, local := lines[event], expected[event];
      assert !QuantityAgrees(line, local) ==> IsLineProblem(expected, lines, event, LineQuantityMismatch(event));
      assert IsUnpriced(line) ==> IsLineProblem(expected, lines, event, AmountMissing(event));
      assert !IsUnpriced(line) && !AmountAgrees(line, local)
        ==> IsLineProblem(expected, lines, event, AmountMismatch(event));
    }
  }

  lemma NoInvoiceProblem(rows: seq<Row>, lines: seq<Line>)
    requires Distinct(LookupKeys(lines)) && ReadsLines(Expected(rows), ByKey(lines))
    ensures (forall p :: !IsInvoiceProblem(Expected(rows), ByKey(lines), p))
       <==> forall e :: IsFed(rows, e) ==> HasLine(lines, e, Total(rows, e))
  {
    hide Expected, ByKey, Total, IsFed, HasLine, IsLineProblem, LineAgrees, Distinct, IsLineReadable, Feeds;
    forall e
      ensures e in Expected(rows) <==> IsFed(rows, e)
      ensures IsFed(rows, e) ==>
        (HasLine(lines, e, Total(rows, e)) <==> forall p :: !IsLineProblem(Expected(rows), ByKey(lines), e, p))
    {
      ExpectedIsTotal(rows, e);
      if IsFed(rows, e) {
        FedIsNamed(rows, e);
        TheLine(lines, e, Total(rows, e));
        NoLineProblem(Expected(rows), ByKey(lines), e);
      }
    }
    forall e, p | e in Expected(rows) && IsLineProblem(Expected(rows), ByKey(lines), e, p)
      ensures IsInvoiceProblem(Expected(rows), ByKey(lines), p)
    {
    }
  }

  lemma FedIsNamed(rows: seq<Row>, event: string)
    requires IsFed(rows, event)
    ensures event != ""
  {
  }

  /** Nothing is reported exactly when the audit holds. */
  lemma NoProblemIsAudit(rows: seq<Row>, summaries: map<string, Decimal>, lines: seq<Line>, problems: seq<Problem>)
    requires CanRead(rows, summaries, lines)
    requires forall p :: p in problems <==> IsProblem(rows, summaries, lines, p)
    ensures problems == [] <==> Audit(rows, summaries, lines)
  {
    hide Expected, ByKey, TransactionIds, LookupKeys, Counter, ReadsLines, Distinct, HasLine, IsFed, Total;
    hide IsRefusal, IsRepeat, IsMismatch, IsDoubledLine, IsInvoiceProblem, AgreesOn;
    NoRefusal(rows);
    NoRepeat(TransactionIds(rows));
    NoRepeat(LookupKeys(lines));
    NoMismatch(rows, summaries);
    if Distinct(LookupKeys(lines)) {
      NoInvoiceProblem(rows, lines);
    }
    if problems == [] {
      forall p
        ensures !IsRefusal(rows, p)
        ensures !IsRepeat(Counter(TransactionIds(rows)), p)
        ensures !IsMismatch(Expected(rows), summaries, p)
        ensures !IsDoubledLine(Counter(LookupKeys(lines)), p)
        ensures !IsInvoiceProblem(Expected(rows), ByKey(lines), p)
      {
        assert !IsProblem(rows, summaries, lines, p);
      }
    } else {
      assert IsProblem(rows, summaries, lines, problems[0]);
    }
  }
}
