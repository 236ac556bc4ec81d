/** What `printReport` and `printTable` (scripts/test.ts) put on the screen, as data: one
    table per network that has results, each row holding the route, status, duration and the
    error cut to the table's error column, and the pass/fail/skip counts of the summary line.
    Colours, borders and padding are rendering and are not modelled. */
module Report {
  import opened Wrappers
  import opened Domain

  /** The error column is never wider than this many characters. */
  const ERROR_CAP: nat := 30
  /** Neither the route nor the error column is narrower than its header. */
  const MIN_WIDTH: nat := 5

  function Min(a: int, b: int): int { if a < b then a else b }

  /** `Array.prototype.filter`: the elements satisfying `keep`, in order. */
  function Filter<T>(s: seq<T>, keep: T -> bool): (r: seq<T>)
    ensures |r| <= |s|
    ensures forall i :: 0 <= i < |r| ==> keep(r[i])
    ensures forall i :: 0 <= i < |r| ==> r[i] in s
    ensures forall i :: 0 <= i < |s| && keep(s[i]) ==> s[i] in r
  {
    if s == [] then []
    else (if keep(s[0]) then [s[0]] else []) + Filter(s[1..], keep)
  }

  /** Filtering a concatenation filters each part and keeps their order. */
  lemma {:induction false} FilterAppend<T>(a: seq<T>, b: seq<T>, keep: T -> bool)
    ensures Filter(a + b, keep) == Filter(a, keep) + Filter(b, keep)
  {
    if a == [] {
      assert a + b == b;
    } else {
      assert (a + b)[1..] == a[1..] + b;
      FilterAppend(a[1..], b, keep);
    }
  }

  /** The filter of a list grown by one element grows by that element exactly when it is kept. */
  lemma FilterSnoc<T>(s: seq<T>, x: T, keep: T -> bool)
    ensures Filter(s + [x], keep) == Filter(s, keep) + (if keep(x) then [x] else [])
  {
    FilterAppend(s, [x], keep);
    assert [x][1..] == [];
  }

  /** Each kept element occurs in the filter as often as in the list, and no other element
      occurs in it. */
  lemma {:induction false} FilterCounts<T>(s: seq<T>, keep: T -> bool)
    ensures forall x :: multiset(Filter(s, keep))[x] == (if keep(x) then multiset(s)[x] else 0)
  {
    if s != [] {
      FilterCounts(s[1..], keep);
      assert s == [s[0]] + s[1..];
      assert multiset(s) == multiset([s[0]]) + multiset(s[1..]);
    }
  }

  /** `String.prototype.slice(0, n)` for `n >= 0`: at most the first `n` characters. */
  function Slice(s: string, n: nat): (r: string)
    ensures |r| == Min(|s|, n) && r <= s
  {
    s[..Min(|s|, n)]
  }

  /** `formatDuration`, as the choice it makes: milliseconds below one second, seconds with
      one decimal otherwise; `NoDuration` is the "-" of a result without a duration. */
  datatype DurationCell = NoDuration | Millis(ms: nat) | Seconds(ms: nat)

  function FormatDuration(ms: nat): (d: DurationCell)
    ensures d.Millis? <==> ms < 1000
    ensures d.Millis? || d.Seconds?
    ensures d.ms == ms
  {
    if ms < 1000 then Millis(ms) else Seconds(ms)
  }

  /** `formatRoute`: "<source chain> <source token> → <target chain> <target token>". */
  function FormatRoute(r: TestResult): string {
    r.sourceChain + " " + r.sourceToken + " → " + r.targetChain + " " + r.targetToken
  }

  /** `r.error || ""`. */
  function ErrorText(r: TestResult): string {
    if r.error.Some? then r.error.value else ""
  }

  /** `Math.max(floor, ...widths)`. */
  function MaxWidth(widths: seq<nat>, floor: nat): (m: nat)
    ensures m >= floor
    ensures forall i :: 0 <= i < |widths| ==> m >= widths[i]
    ensures m == floor || m in widths
  {
    if widths == [] then floor
    else
      var rest := MaxWidth(widths[1..], floor);
      if widths[0] > rest then widths[0] else rest
  }

  function RouteWidth(results: seq<TestResult>): nat {
    MaxWidth(seq(|results|, i requires 0 <= i < |results| => |FormatRoute(results[i])|), MIN_WIDTH)
  }

  function ErrorWidth(results: seq<TestResult>): nat {
    MaxWidth(seq(|results|, i requires 0 <= i < |results| => Min(|ErrorText(results[i])|, ERROR_CAP) as nat), MIN_WIDTH)
  }

  datatype Row = Row(route: string, status: Status, duration: DurationCell, error: string)

  datatype Table = Table(title: string, routeWidth: nat, errorWidth: nat, rows: seq<Row>)

  function RowOf(r: TestResult, errorWidth: nat): Row {
    Row(FormatRoute(r), r.status,
        if r.durationMs.Some? then FormatDuration(r.durationMs.value) else NoDuration,
        Slice(ErrorText(r), errorWidth))
  }

  /** The error column holds at least `MIN_WIDTH` and at most `ERROR_CAP` characters, and is
      wide enough for every error up to `ERROR_CAP` characters. */
  lemma ErrorWidthBounds(results: seq<TestResult>)
    ensures MIN_WIDTH <= ErrorWidth(results) <= ERROR_CAP
    ensures forall i :: 0 <= i < |results| ==> ErrorWidth(results) >= Min(|ErrorText(results[i])|, ERROR_CAP)
  {
    var widths := seq(|results|, i requires 0 <= i < |results| => Min(|ErrorText(results[i])|, ERROR_CAP) as nat);
    assert forall i :: 0 <= i < |results| ==> widths[i] == Min(|ErrorText(results[i])|, ERROR_CAP);
  }

  /** `printTable`: nothing for an empty list; otherwise one row per result, in order, each
      with the result's route, status and duration, and its error shown whole when it has at
      most `ERROR_CAP` characters and cut to its first `ERROR_CAP` characters otherwise. */
  function PrintTable(title: string, results: seq<TestResult>): (t: Option<Table>)
    ensures t.None? <==> results == []
    ensures t.Some? ==> |t.value.rows| == |results|
    ensures t.Some? ==> forall i :: 0 <= i < |results| ==>
      && t.value.rows[i].route == FormatRoute(results[i])
      && |t.value.rows[i].route| <= t.value.routeWidth
      && t.value.rows[i].status == results[i].status
      && (t.value.rows[i].duration == NoDuration <==> results[i].durationMs.None?)
      && (results[i].durationMs.Some? ==> t.value.rows[i].duration == FormatDuration(results[i].durationMs.value))
      && t.value.rows[i].error == ErrorText(results[i])[..Min(|ErrorText(results[i])|, ERROR_CAP)]
  {
    if results == [] then None
    else
      var w := ErrorWidth(results);
      ErrorWidthBounds(results);
      var routes := seq(|results|, i requires 0 <= i < |results| => |FormatRoute(results[i])|);
      assert forall i :: 0 <= i < |results| ==> routes[i] == |FormatRoute(results[i])|;
      Some(Table(title, RouteWidth(results), w, seq(|results|, i requires 0 <= i < |results| => RowOf(results[i], w))))
  }

  function WithNetwork(results: seq<TestResult>, network: Network): seq<TestResult> {
    Filter(results, (r: TestResult) => r.network == network)
  }

  function WithStatus(results: seq<TestResult>, status: Status): seq<TestResult> {
    Filter(results, (r: TestResult) => r.status == status)
  }

  /** The printed report: the testnet table, the mainnet table, and the summary counts. */
  datatype Summary = Summary(testnet: Option<Table>, mainnet: Option<Table>, passed: nat, failed: nat, skipped: nat)

  /** `printReport`: a table per network (none for a network without results), each the
      table of that network's results in their order, and the numbers of passed, failed and
      skipped results. */
  function PrintReport(results: seq<TestResult>): (s: Summary)
    ensures s.testnet == PrintTable("Testnet Results", WithNetwork(results, Testnet))
    ensures s.mainnet == PrintTable("Mainnet Results", WithNetwork(results, Mainnet))
    ensures s.testnet.None? <==> forall i :: 0 <= i < |results| ==> results[i].network != Testnet
    ensures s.mainnet.None? <==> forall i :: 0 <= i < |results| ==> results[i].network != Mainnet
    ensures s.passed == |WithStatus(results, Pass)|
    ensures s.failed == |WithStatus(results, Fail)|
    ensures s.skipped == |WithStatus(results, Skip)|
  {
    var testnet := WithNetwork(results, Testnet);
    var mainnet := WithNetwork(results, Mainnet);
    assert testnet == [] <==> forall i :: 0 <= i < |results| ==> results[i].network != Testnet by {
      if testnet != [] { assert testnet[0] in results; }
    }
    assert mainnet == [] <==> forall i :: 0 <= i < |results| ==> results[i].network != Mainnet by {
      if mainnet != [] { assert mainnet[0] in results; }
    }
    Summary(PrintTable("Testnet Results", testnet), PrintTable("Mainnet Results", mainnet),
            |WithStatus(results, Pass)|, |WithStatus(results, Fail)|, |WithStatus(results, Skip)|)
  }

  /** Every result is counted exactly once in the summary. */
  lemma {:induction false} CountsSum(results: seq<TestResult>)
    ensures |WithStatus(results, Pass)| + |WithStatus(results, Fail)| + |WithStatus(results, Skip)| == |results|
  {
    if results != [] {
      CountsSum(results[1..]);
    }
  }

  /** Every result appears in exactly one of the two tables. */
  lemma {:induction false} NetworksPartition(results: seq<TestResult>)
    ensures |WithNetwork(results, Testnet)| + |WithNetwork(results, Mainnet)| == |results|
  {
    if results != [] {
      NetworksPartition(results[1..]);
    }
  }
}
