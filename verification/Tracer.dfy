/**
  The tracer's stop loop: what it injects into the traced process at each resume, which calls it counts and prints,
  and what the summary adds up to.
 */
module Tracer {
  import opened Syntax

  datatype Info =
    | Entry(nr: int, args: string)
    | Exit(rval: int)
    | OtherInfo
    | NoInfo                       // the request for the information failed

  datatype Status = Exited(code: nat) | Signaled(signal: nat) | Stopped(signal: nat, info: Info) | Continued

  /** One turn of the loop: the resume fails, the wait fails, or the traced process reports. */
  datatype Round = Gone | ResumeFails | WaitFails | Reports(status: Status)

  datatype Call = Call(nr: int, args: string, rval: int)

  datatype Stats = Stats(calls: nat, errors: nat)

  datatype Row = Row(nr: int, stats: Stats)

  datatype Report = Report(rows: seq<Row>, calls: nat, errors: nat)

  const SIGTRAP: nat := 5
  const SIGSTOP: nat := 19
  const SYSCALL_STOP: nat := 0x85   // SIGTRAP with the bit that marks stops at system calls

  predicate IsErrorReturn(value: int) {
    -4095 <= value < 0
  }

  predicate IsEntry(r: Round) {
    r.Reports? && r.status.Stopped? && r.status.signal == 133 && r.status.info.Entry?
  }

  predicate IsExit(r: Round) {
    r.Reports? && r.status.Stopped? && r.status.signal == 133 && r.status.info.Exit?
  }

  // ---------- when the loop ends ----------

  predicate Finishes(r: Round) {
    r.Reports? && (r.status.Exited? || r.status.Signaled?)
  }

  predicate Ends(r: Round) {
    !r.Reports? || Finishes(r) || (r.status.Stopped? && r.status.signal == SYSCALL_STOP && r.status.info.NoInfo?)
  }

  function ExitCode(r: Round): nat {
    if !Finishes(r) then 1
    else if r.status.Exited? then r.status.code
    else 128 + r.status.signal
  }

  /** The turns the loop takes of `rounds`: up to and including the first that ends it. */
  predicate Taken(rounds: seq<Round>, n: nat) {
    && n <= |rounds|
    && (forall k :: 0 <= k < n - 1 ==> !Ends(rounds[k]))
    && (n < |rounds| ==> n > 0 && Ends(rounds[n - 1]))
  }

  // ---------- signals ----------

  /** The signal of a stop that belongs to the traced process itself and not to the tracing. */
  function OwnSignal(r: Round): nat {
    if r.Reports? && r.status.Stopped? && r.status.signal !in {SYSCALL_STOP, SIGTRAP, SIGSTOP} then r.status.signal
    else 0
  }

  // ---------- completed calls ----------

  predicate Silent(rounds: seq<Round>, j: nat, k: nat) {
    forall i :: j < i < k && i < |rounds| ==> !IsEntry(rounds[i]) && !IsExit(rounds[i])
  }

  /** The entry at `j` is still open after `n` turns. */
  predicate OpenAt(rounds: seq<Round>, n: nat, j: nat) {
    j < n <= |rounds| && IsEntry(rounds[j]) && Silent(rounds, j, n)
  }

  /** The stops at `j` and `k` are the entry and the exit of one call. */
  predicate Pairs(rounds: seq<Round>, j: nat, k: nat) {
    k < |rounds| && IsExit(rounds[k]) && OpenAt(rounds, k, j)
  }

  lemma {:induction false} OpenUnique(rounds: seq<Round>, n: nat, i: nat, j: nat)
    requires OpenAt(rounds, n, i) && OpenAt(rounds, n, j)
    ensures i == j
  {
  }

  ghost predicate Returns(rounds: seq<Round>, k: nat) {
    exists j: nat :: Pairs(rounds, j, k)
  }

  ghost function CallAt(rounds: seq<Round>, k: nat): Call
    requires Returns(rounds, k)
  {
    var j: nat :| Pairs(rounds, j, k);
    Call(rounds[j].status.info.nr, rounds[j].status.info.args, rounds[k].status.info.rval)
  }

  /** The calls completed in the first `n` turns, in the order of their exits. */
  ghost function Completed(rounds: seq<Round>, n: nat): seq<Call>
    requires n <= |rounds|
  {
    if n == 0 then []
    else Completed(rounds, n - 1) + if Returns(rounds, n - 1) then [CallAt(rounds, n - 1)] else []
  }

  // ---------- counting ----------

  function Count(calls: seq<Call>, nrs: set<int>): nat {
    if calls == [] then 0
    else Count(calls[..|calls| - 1], nrs) + if calls[|calls| - 1].nr in nrs then 1 else 0
  }

  function CountErrors(calls: seq<Call>, nrs: set<int>): nat {
    if calls == [] then 0
    else
      var last := calls[|calls| - 1];
      CountErrors(calls[..|calls| - 1], nrs) + if last.nr in nrs && -4096 < last.rval <= -1 then 1 else 0
  }

  lemma {:induction false} ErrorsAmongCalls(calls: seq<Call>, nrs: set<int>)
    ensures CountErrors(calls, nrs) <= Count(calls, nrs) <= |calls|
  {
    if calls != [] { ErrorsAmongCalls(calls[..|calls| - 1], nrs); }
  }

  lemma {:induction false} CountSplits(calls: seq<Call>, a: set<int>, b: set<int>)
    requires a !! b
    ensures Count(calls, a + b) == Count(calls, a) + Count(calls, b)
    ensures CountErrors(calls, a + b) == CountErrors(calls, a) + CountErrors(calls, b)
  {
    if calls != [] { CountSplits(calls[..|calls| - 1], a, b); }
  }

  lemma {:induction false} CountNone(calls: seq<Call>)
    ensures Count(calls, {}) == 0 && CountErrors(calls, {}) == 0
  {
    if calls != [] { CountNone(calls[..|calls| - 1]); }
  }

  /** Every counted call has its number among the keys of `stats`, so counting over the keys counts them all. */
  lemma {:induction false} CountAll(calls: seq<Call>, nrs: set<int>)
    requires forall i :: 0 <= i < |calls| ==> calls[i].nr in nrs
    ensures Count(calls, nrs) == |calls| && CountErrors(calls, nrs) == |ErrorCalls(calls)|
  {
    if calls != [] { CountAll(calls[..|calls| - 1], nrs); }
  }

  /** The calls that returned an error: a negative number, down to -4095. */
  function ErrorCalls(calls: seq<Call>): seq<Call> {
    if calls == [] then []
    else ErrorCalls(calls[..|calls| - 1]) + if -4096 < calls[|calls| - 1].rval <= -1 then [calls[|calls| - 1]] else []
  }

  /** `stats` holds, for each number that occurs in `calls`, its calls and its errors, and nothing else. */
  ghost predicate Tallies(stats: map<int, Stats>, calls: seq<Call>) {
    && (forall i :: 0 <= i < |calls| ==> calls[i].nr in stats)
    && (forall nr | nr in stats ::
          stats[nr] == Stats(Count(calls, {nr}), CountErrors(calls, {nr})) && stats[nr].calls > 0)
  }

  lemma {:induction false} ErrorsWithinCalls(stats: map<int, Stats>, calls: seq<Call>, nr: int)
    requires Tallies(stats, calls) && nr in stats
    ensures stats[nr].errors <= stats[nr].calls <= |calls|
  {
    ErrorsAmongCalls(calls, {nr});
  }

  function Noted(stats: map<int, Stats>, nr: int, rval: int): map<int, Stats> {
    var s := if nr in stats then stats[nr] else Stats(0, 0);
    stats[nr := Stats(s.calls + 1, if IsErrorReturn(rval) then s.errors + 1 else s.errors)]
  }

  lemma {:induction false} Absent(calls: seq<Call>, nr: int)
    requires forall i :: 0 <= i < |calls| ==> calls[i].nr != nr
    ensures Count(calls, {nr}) == 0 && CountErrors(calls, {nr}) == 0
  {
    if calls != [] { Absent(calls[..|calls| - 1], nr); }
  }

  lemma {:induction false} NotedTallies(stats: map<int, Stats>, calls: seq<Call>, c: Call)
    requires Tallies(stats, calls)
    ensures Tallies(Noted(stats, c.nr, c.rval), calls + [c])
  {
    var all := calls + [c];
    assert all[..|all| - 1] == calls;
    if c.nr !in stats { Absent(calls, c.nr); }
    forall nr ensures Count(all, {nr}) == Count(calls, {nr}) + (if nr == c.nr then 1 else 0) {
    }
  }

  // ---------- the summary ----------

  function SumCalls(rows: seq<Row>): nat {
    if rows == [] then 0 else SumCalls(rows[..|rows| - 1]) + rows[|rows| - 1].stats.calls
  }

  function SumErrors(rows: seq<Row>): nat {
    if rows == [] then 0 else SumErrors(rows[..|rows| - 1]) + rows[|rows| - 1].stats.errors
  }

  function Numbers(rows: seq<Row>): set<int> {
    set i | 0 <= i < |rows| :: rows[i].nr
  }

  lemma {:induction false} SomeMember(s: set<int>)
    requires s != {}
    ensures exists x :: x in s
  {
    assert (forall x: int :: x !in s) ==> s == {};
  }

  /** One row, with its figures, for each number in `nrs`. */
  ghost predicate Lists(rows: seq<Row>, nrs: set<int>, stats: map<int, Stats>) {
    && nrs <= stats.Keys
    && (forall i :: 0 <= i < |rows| ==> rows[i].nr in nrs && rows[i].stats == stats[rows[i].nr])
    && (forall i, j :: 0 <= i < j < |rows| ==> rows[i].nr != rows[j].nr)
    && nrs <= Numbers(rows)
  }

  // ---------- the order of its rows ----------

  /** Lexicographic order of names. */
  predicate NameAtMost(a: string, b: string) {
    a == "" || (b != "" && (a[0] < b[0] || (a[0] == b[0] && NameAtMost(a[1..], b[1..]))))
  }

  lemma {:induction false} NamesTotal(a: string, b: string)
    ensures NameAtMost(a, b) || NameAtMost(b, a)
  {
    if a != "" && b != "" && a[0] == b[0] { NamesTotal(a[1..], b[1..]); }
  }

  lemma {:induction false} NamesTransitive(a: string, b: string, c: string)
    requires NameAtMost(a, b) && NameAtMost(b, c)
    ensures NameAtMost(a, c)
  {
    if a != "" && a[0] == b[0] == c[0] { NamesTransitive(a[1..], b[1..], c[1..]); }
  }

  /** More calls first, then by name. */
  predicate NotAfter(a: Row, b: Row, name: int -> string) {
    a.stats.calls > b.stats.calls || (a.stats.calls == b.stats.calls && NameAtMost(name(a.nr), name(b.nr)))
  }

  ghost predicate Ordered(rows: seq<Row>, name: int -> string) {
    forall i, j :: 0 <= i < j < |rows| ==> NotAfter(rows[i], rows[j], name)
  }

  lemma {:induction false} NotAfterTransitive(a: Row, b: Row, c: Row, name: int -> string)
    requires NotAfter(a, b, name) && NotAfter(b, c, name)
    ensures NotAfter(a, c, name)
  {
    if a.stats.calls == b.stats.calls == c.stats.calls { NamesTransitive(name(a.nr), name(b.nr), name(c.nr)); }
  }

  function Inserted(rows: seq<Row>, pos: nat, row: Row): seq<Row>
    requires pos <= |rows|
  {
    rows[..pos] + [row] + rows[pos..]
  }

  /** The place where `row` keeps the rows in order. */
  method Place(rows: seq<Row>, row: Row, name: int -> string) returns (pos: nat)
    requires Ordered(rows, name)
    ensures pos <= |rows| && Ordered(Inserted(rows, pos, row), name)
  {
    pos := 0;
    while pos < |rows| && NotAfter(rows[pos], row, name)
      invariant pos <= |rows| && forall i :: 0 <= i < pos ==> NotAfter(rows[i], row, name)
    {
      pos := pos + 1;
    }
    forall i | pos <= i < |rows| ensures NotAfter(row, rows[i], name) {
      NamesTotal(name(rows[pos].nr), name(row.nr));
      if pos < i { NotAfterTransitive(row, rows[pos], rows[i], name); }
    }
  }

  lemma {:induction false} SumInserted(rows: seq<Row>, pos: nat, row: Row)
    requires pos <= |rows|
    ensures SumCalls(Inserted(rows, pos, row)) == SumCalls(rows) + row.stats.calls
    ensures SumErrors(Inserted(rows, pos, row)) == SumErrors(rows) + row.stats.errors
  {
    var all := Inserted(rows, pos, row);
    if pos == |rows| {
      assert all[..|all| - 1] == rows;
    } else {
      var init := rows[..|rows| - 1];
      assert all[..|all| - 1] == Inserted(init, pos, row);
      SumInserted(init, pos, row);
    }
  }

  lemma {:induction false} ListsInserted(rows: seq<Row>, nrs: set<int>, stats: map<int, Stats>, pos: nat, nr: int)
    requires Lists(rows, nrs, stats) && nr in stats && nr !in nrs && pos <= |rows|
    ensures Lists(Inserted(rows, pos, Row(nr, stats[nr])), nrs + {nr}, stats)
  {
    var all := Inserted(rows, pos, Row(nr, stats[nr]));
    assert all[pos].nr == nr;
    forall x | x in nrs ensures x in Numbers(all) {
      var i :| 0 <= i < |rows| && rows[i].nr == x;
      assert all[if i < pos then i else i + 1].nr == x;
    }
  }

  /** Puts the rows in order. */
  method SortRows(rows: seq<Row>, name: int -> string, ghost stats: map<int, Stats>) returns (sorted: seq<Row>)
    requires Lists(rows, stats.Keys, stats)
    ensures Ordered(sorted, name) && Lists(sorted, stats.Keys, stats)
    ensures SumCalls(sorted) == SumCalls(rows) && SumErrors(sorted) == SumErrors(rows)
  {
    sorted := [];
    for i := 0 to |rows|
      invariant Ordered(sorted, name) && Lists(sorted, Numbers(rows[..i]), stats)
      invariant SumCalls(sorted) == SumCalls(rows[..i]) && SumErrors(sorted) == SumErrors(rows[..i])
    {
      var row := rows[i];
      assert rows[..i + 1][..i] == rows[..i];
      assert Numbers(rows[..i + 1]) == Numbers(rows[..i]) + {row.nr};
      var pos := Place(sorted, row, name);
      SumInserted(sorted, pos, row);
      ListsInserted(sorted, Numbers(rows[..i]), stats, pos, row.nr);
      sorted := Inserted(sorted, pos, row);
    }
    assert rows[..|rows|] == rows && Numbers(rows) == stats.Keys;
  }

  method RenderSummary(stats: map<int, Stats>, name: int -> string) returns (r: Report)
    ensures Lists(r.rows, stats.Keys, stats) && Ordered(r.rows, name)
    ensures r.calls == SumCalls(r.rows) && r.errors == SumErrors(r.rows)
  {
    hide Ordered, Lists;
    var rows: seq<Row> := [];
    var calls, errors := 0, 0;
    var rest := stats.Keys;
    NoneListed(stats);
    while rest != {}
      invariant rest <= stats.Keys
      invariant Lists(rows, stats.Keys - rest, stats)
      invariant calls == SumCalls(rows) && errors == SumErrors(rows)
    {
      SomeMember(rest);
      var nr :| nr in rest;
      RowAdded(rows, rest, stats, nr);
      rows := rows + [Row(nr, stats[nr])];
      calls := calls + stats[nr].calls;
      errors := errors + stats[nr].errors;
      rest := rest - {nr};
    }
    assert stats.Keys - rest == stats.Keys;
    rows := SortRows(rows, name, stats);
    r := Report(rows, calls, errors);
  }

  lemma {:induction false} NoneListed(stats: map<int, Stats>)
    ensures Lists([], stats.Keys - stats.Keys, stats)
  {
  }

  lemma {:induction false} RowAdded(rows: seq<Row>, rest: set<int>, stats: map<int, Stats>, nr: int)
    requires rest <= stats.Keys && nr in rest && Lists(rows, stats.Keys - rest, stats)
    ensures var more := rows + [Row(nr, stats[nr])];
            && Lists(more, stats.Keys - (rest - {nr}), stats)
            && SumCalls(more) == SumCalls(rows) + stats[nr].calls
            && SumErrors(more) == SumErrors(rows) + stats[nr].errors
  {
    hide Lists;
    ListsInserted(rows, stats.Keys - rest, stats, |rows|, nr);
    assert stats.Keys - (rest - {nr}) == stats.Keys - rest + {nr};
    assert Inserted(rows, |rows|, Row(nr, stats[nr])) == rows + [Row(nr, stats[nr])];
    SumInserted(rows, |rows|, Row(nr, stats[nr]));
  }

  lemma {:induction false} SumsCount(rows: seq<Row>, calls: seq<Call>)
    requires forall i, j :: 0 <= i < j < |rows| ==> rows[i].nr != rows[j].nr
    requires forall i :: 0 <= i < |rows| ==>
                           rows[i].stats == Stats(Count(calls, {rows[i].nr}), CountErrors(calls, {rows[i].nr}))
    ensures SumCalls(rows) == Count(calls, Numbers(rows)) && SumErrors(rows) == CountErrors(calls, Numbers(rows))
  {
    if rows == [] {
      assert Numbers(rows) == {};
      CountNone(calls);
    } else {
      var init, last := rows[..|rows| - 1], rows[|rows| - 1];
      SumsCount(init, calls);
      assert Numbers(rows) == Numbers(init) + {last.nr};
      CountSplits(calls, Numbers(init), {last.nr});
    }
  }

  /** The totals under the summary are the number of completed calls and of those among them that failed. */
  lemma {:induction false} SummaryTotals(rows: seq<Row>, stats: map<int, Stats>, calls: seq<Call>)
    requires Tallies(stats, calls) && Lists(rows, stats.Keys, stats)
    ensures SumCalls(rows) == |calls| && SumErrors(rows) == |ErrorCalls(calls)|
  {
    SumsCount(rows, calls);
    assert Numbers(rows) == stats.Keys;
    CountAll(calls, stats.Keys);
  }

  // ---------- the loop ----------

  datatype Outcome = Outcome(
    code: Option<nat>,         // None: the traced process is still at work when `rounds` run out
    used: nat,                 // turns taken
    injected: seq<nat>,        // the signal passed at each resume
    lines: seq<Call>,          // calls printed as they complete
    stats: map<int, Stats>,
    report: Option<Report>)

  ghost predicate EntryIs(rounds: seq<Round>, n: nat, current: Option<(int, string)>) {
    && (forall j: nat | OpenAt(rounds, n, j) ::
          current == Some((rounds[j].status.info.nr, rounds[j].status.info.args)))
    && (current.Some? ==> exists j: nat :: OpenAt(rounds, n, j))
  }

  /** One more turn that is neither entry nor exit leaves the open entry and the completed calls alone. */
  lemma {:induction false} OtherTurn(rounds: seq<Round>, n: nat, current: Option<(int, string)>)
    requires n < |rounds| && !IsEntry(rounds[n]) && !IsExit(rounds[n]) && EntryIs(rounds, n, current)
    ensures EntryIs(rounds, n + 1, current) && Completed(rounds, n + 1) == Completed(rounds, n)
  {
    forall j: nat ensures OpenAt(rounds, n + 1, j) <==> OpenAt(rounds, n, j) {
    }
    if current.Some? {
      var j: nat :| OpenAt(rounds, n, j);
      assert OpenAt(rounds, n + 1, j);
    }
  }

  lemma {:induction false} EntryTurn(rounds: seq<Round>, n: nat)
    requires n < |rounds| && IsEntry(rounds[n])
    ensures EntryIs(rounds, n + 1, Some((rounds[n].status.info.nr, rounds[n].status.info.args)))
    ensures Completed(rounds, n + 1) == Completed(rounds, n)
  {
    var m := n + 1;
    assert OpenAt(rounds, m, n);
    forall j: nat | OpenAt(rounds, m, j) ensures j == n {
      OpenUnique(rounds, m, j, n);
    }
  }

  lemma {:induction false} ExitTurn(rounds: seq<Round>, n: nat, current: Option<(int, string)>)
    requires n < |rounds| && IsExit(rounds[n]) && EntryIs(rounds, n, current)
    ensures EntryIs(rounds, n + 1, None)
    ensures Completed(rounds, n + 1) ==
            if current.None? then Completed(rounds, n)
            else Completed(rounds, n) + [Call(current.value.0, current.value.1, rounds[n].status.info.rval)]
  {
    if current.Some? {
      var j: nat :| OpenAt(rounds, n, j);
      assert Pairs(rounds, j, n);
    }
  }

  lemma {:induction false} NothingYet(rounds: seq<Round>)
    ensures EntryIs(rounds, 0, None) && Completed(rounds, 0) == [] && Tallies(map[], [])
  {
  }

  method Trace(summary: bool, rounds: seq<Round>, name: int -> string) returns (out: Outcome)
    ensures Taken(rounds, out.used)
    ensures out.code ==
            if out.used > 0 && Ends(rounds[out.used - 1]) then Some(ExitCode(rounds[out.used - 1])) else None
    ensures out.code.Some? ==>
              match rounds[out.used - 1]
              case Reports(Exited(code)) => out.code.value == code
              case Reports(Signaled(signal)) => out.code.value == 128 + signal
              case Reports(Stopped(signal, info)) => signal == 133 && info == NoInfo && out.code.value == 1
              case Reports(Continued) => false
              case _ => out.code.value == 1
    ensures out.code.None? ==>
              out.used == |rounds| && forall k | 0 <= k < |rounds| :: rounds[k].Reports?
    ensures |out.injected| == out.used
    ensures forall k :: 0 <= k < out.used ==> out.injected[k] == if k == 0 then 0 else OwnSignal(rounds[k - 1])
    ensures forall k :: 0 < k < out.used ==>
              match rounds[k - 1]
              case Reports(Stopped(signal, _)) => out.injected[k] == if signal in {5, 19, 133} then 0 else signal
              case Reports(Continued) => out.injected[k] == 0
              case _ => false
    ensures out.lines == if summary then [] else Completed(rounds, out.used)
    ensures Tallies(out.stats, Completed(rounds, out.used))
    ensures out.report.Some? <==>
            summary && out.used > 0 && (rounds[out.used - 1].Gone? || Finishes(rounds[out.used - 1]))
    ensures out.report.Some? ==>
              Lists(out.report.value.rows, out.stats.Keys, out.stats) && Ordered(out.report.value.rows, name)
    ensures out.report.Some? ==> out.report.value.calls == |Completed(rounds, out.used)|
    ensures out.report.Some? ==> out.report.value.errors == |ErrorCalls(Completed(rounds, out.used))|
  {
    hide EntryIs, Completed, Tallies, Noted, ErrorCalls;
    NothingYet(rounds);
    var current: Option<(int, string)> := None;
    var stats: map<int, Stats> := map[];
    var signal := 0;
    var injected: seq<nat> := [];
    var lines: seq<Call> := [];
    var n := 0;
    while n < |rounds| && (n == 0 || !Ends(rounds[n - 1]))
      invariant n <= |rounds|
      invariant forall k :: 0 <= k < n - 1 ==> !Ends(rounds[k])
      invariant |injected| == n
      invariant forall k :: 0 <= k < n ==> injected[k] == if k == 0 then 0 else OwnSignal(rounds[k - 1])
      invariant signal == if n == 0 then 0 else OwnSignal(rounds[n - 1])
      invariant EntryIs(rounds, n, current)
      invariant lines == if summary then [] else Completed(rounds, n)
      invariant Tallies(stats, Completed(rounds, n))
    {
      var round := rounds[n];
      injected := injected + [signal];
      signal := 0;
      var atCall := round.Reports? && round.status.Stopped? && round.status.signal == SYSCALL_STOP;
      if atCall && round.status.info.Entry? {
        EntryTurn(rounds, n);
        current := Some((round.status.info.nr, round.status.info.args));
      } else if atCall && round.status.info.Exit? {
        ExitTurn(rounds, n, current);
        if current.Some? {
          var call := Call(current.value.0, current.value.1, round.status.info.rval);
          NotedTallies(stats, Completed(rounds, n), call);
          stats := Noted(stats, call.nr, call.rval);
          if !summary { lines := lines + [call]; }
        }
        current := None;
      } else {
        OtherTurn(rounds, n, current);
        if round.Reports? && round.status.Stopped? && round.status.signal != SYSCALL_STOP
          && round.status.signal != SIGTRAP && round.status.signal != SIGSTOP {
          signal := round.status.signal;
        }
      }
      n := n + 1;
    }
    var ended := n > 0 && Ends(rounds[n - 1]);
    var report := None;
    if summary && ended && (rounds[n - 1].Gone? || Finishes(rounds[n - 1])) {
      var r := RenderSummary(stats, name);
      SummaryTotals(r.rows, stats, Completed(rounds, n));
      report := Some(r);
    }
    out := Outcome(if ended then Some(ExitCode(rounds[n - 1])) else None, n, injected, lines, stats, report);
  }
}
