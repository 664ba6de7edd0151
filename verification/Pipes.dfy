/**
  Executing a pipeline as far as descriptors go: creating its pipes, forking its stages, wiring each one and closing
  every other copy; and the builtins that run in the shell itself. Nothing is assumed about which descriptors the
  shell has open, not even the standard ones.
 */
module Pipes {
  import opened Syntax
  import opened Descriptors

  /** The descriptors of the pipes, by pipe: read end and write end. */
  type Numbers = seq<(int, int)>

  // ---------- pipe numbers ----------

  /** The kernel hands out the lowest descriptor that is free, so pipe numbers only grow. */
  ghost predicate Increasing(ns: Numbers) {
    && (forall i | 0 <= i < |ns| :: 0 <= ns[i].0 < ns[i].1)
    && forall i, j | 0 <= i < j < |ns| :: ns[i].1 < ns[j].0
  }

  /** What the handles of the pipe vector own. */
  ghost function Owned(ns: Numbers): set<int> {
    (set i | 0 <= i < |ns| && ns[i].0 >= 0 :: ns[i].0) + (set i | 0 <= i < |ns| && ns[i].1 >= 0 :: ns[i].1)
  }

  lemma {:induction false} OwnedNext(ns: Numbers, i: nat)
    requires Increasing(ns) && i < |ns|
    ensures Owned(ns[..i + 1]) == Owned(ns[..i]) + {ns[i].0, ns[i].1}
    ensures ns[i].0 !in Owned(ns[..i]) && ns[i].1 !in Owned(ns[..i])
    ensures ns[i].0 in Owned(ns) && ns[i].1 in Owned(ns)
  {
    var less, more := ns[..i], ns[..i + 1];
    assert more[i] == ns[i];
    forall k | k in Owned(less) + {ns[i].0, ns[i].1} ensures k in Owned(more) {
      if j :| 0 <= j < i && (less[j].0 == k || less[j].1 == k) {
        assert more[j] == less[j];
      }
    }
    forall k | k in Owned(more) ensures k in Owned(less) + {ns[i].0, ns[i].1} {
      var j :| 0 <= j < i + 1 && (more[j].0 == k || more[j].1 == k);
      assert j < i ==> less[j] == more[j];
    }
    assert forall j | 0 <= j < i :: less[j] == ns[j];
  }

  /** Every handle of the pipe vector is empty. */
  ghost predicate Emptied(ns: Numbers) {
    forall i | 0 <= i < |ns| :: ns[i] == (-1, -1)
  }

  /** Closes both ends of pipe `i`, as far as its handles own them. */
  method ClosePipe(p: Process, i: nat)
    requires i < |p.pipes|
    requires
      || p.pipes[i] == (-1, -1)
      || (p.pipes[i].0 in p.table && p.pipes[i].1 in p.table && 0 <= p.pipes[i].0 < p.pipes[i].1)
    modifies p
    ensures p.pipes == old(p.pipes)[i := (-1, -1)]
    ensures var (r, w) := old(p.pipes[i]); p.table == if (r, w) == (-1, -1) then old(p.table) else old(p.table) - {r, w}
  {
    if p.pipes[i].0 >= 0 {
      p.Close(p.pipes[i].0);
    }
    p.pipes := p.pipes[i := (-1, p.pipes[i].1)];
    if p.pipes[i].1 >= 0 {
      p.Close(p.pipes[i].1);
    }
    p.pipes := p.pipes[i := (-1, -1)];
  }

  lemma {:induction false} EmptiedOwned(ns: Numbers)
    requires Emptied(ns)
    ensures Owned(ns) == {}
  {
  }

  /** Closes exactly what the handles own; called again it changes nothing. */
  method CloseAllPipes(p: Process)
    requires Emptied(p.pipes) || (Increasing(p.pipes) && Owned(p.pipes) <= p.table.Keys)
    modifies p
    ensures p.table == old(p.table) - Owned(old(p.pipes))
    ensures |p.pipes| == |old(p.pipes)| && Emptied(p.pipes)
  {
    hide Owned;
    ghost var ns, empty := p.pipes, Emptied(p.pipes);
    NoneOwned(p.table);
    assert ns[..0] == [] && ns[..|ns|] == ns;
    if empty {
      EmptiedOwned(ns);
    }
    for i := 0 to |p.pipes|
      invariant |p.pipes| == |ns| && p.table == if empty then old(p.table) else old(p.table) - Owned(ns[..i])
      invariant forall j | 0 <= j < |ns| :: p.pipes[j] == if j < i then (-1, -1) else ns[j]
    {
      if !empty {
        OwnedNext(ns, i);
      }
      ClosePipe(p, i);
    }
  }

  /** `t` has the descriptors of `base` and the ends of the pipes besides, and no gap below them. */
  ghost predicate Carries(t: Table, ns: Numbers, base: Table) {
    && Increasing(ns)
    && (forall k | k in t :: k in base || k in Owned(ns))
    && (forall k | k in base :: k in t && t[k] == base[k])
    && (forall i | 0 <= i < |ns| ::
          && ns[i].0 !in base && ns[i].1 !in base && ns[i].0 in t && ns[i].1 in t
          && t[ns[i].0] == PipeRead(i) && t[ns[i].1] == PipeWrite(i))
    && (ns != [] ==> forall k | 0 <= k < ns[|ns| - 1].1 :: k in t)
  }

  lemma {:induction false} NumbersGrow(t: Table, ns: Numbers, base: Table, r: int, w: int)
    requires Carries(t, ns, base) && Lowest(t, r) && Lowest(t[r := PipeRead(|ns|)], w)
    ensures Increasing(ns + [(r, w)])
  {
    hide Owned;
    var more := ns + [(r, w)];
    if ns != [] {
      var last := ns[|ns| - 1].1;
      assert last in t && last < r;
      assert forall i | 0 <= i < |ns| :: ns[i].1 <= last;
    }
    assert more[|ns|] == (r, w) && forall i | 0 <= i < |ns| :: more[i] == ns[i];
  }

  lemma {:induction false} OwnedMore(ns: Numbers, r: int, w: int)
    requires Increasing(ns + [(r, w)])
    ensures Owned(ns + [(r, w)]) == Owned(ns) + {r, w}
  {
    hide Owned, Increasing;
    var more := ns + [(r, w)];
    assert more[..|ns|] == ns && more[..|ns| + 1] == more;
    OwnedNext(more, |ns|);
  }

  lemma {:induction false} PipeAdded(t: Table, ns: Numbers, base: Table, r: int, w: int)
    requires Carries(t, ns, base) && Lowest(t, r) && Lowest(t[r := PipeRead(|ns|)], w)
    ensures Carries(t[r := PipeRead(|ns|)][w := PipeWrite(|ns|)], ns + [(r, w)], base)
  {
    hide Owned, Increasing;
    NumbersGrow(t, ns, base, r, w);
    OwnedMore(ns, r, w);
    var more := ns + [(r, w)];
    assert more[|ns|] == (r, w) && forall i | 0 <= i < |ns| :: more[i] == ns[i];
  }

  /** Creates `count` pipes unless the system refuses the one numbered `refused`. */
  method CreatePipes(p: Process, count: nat, refused: nat) returns (ok: bool)
    requires p.pipes == []
    modifies p
    ensures Carries(p.table, p.pipes, old(p.table))
    ensures (ok <==> refused >= count) && |p.pipes| == if ok then count else refused
  {
    for i := 0 to count
      invariant |p.pipes| == i <= refused && Carries(p.table, p.pipes, old(p.table))
    {
      if i == refused {
        return false;
      }
      ghost var t, ns := p.table, p.pipes;
      var r, w := p.Pipe(i);
      PipeAdded(t, ns, old(p.table), r, w);
      p.pipes := p.pipes + [(r, w)];
    }
    return true;
  }

  lemma {:induction false} CarriesOwned(t: Table, ns: Numbers, base: Table)
    requires Carries(t, ns, base)
    ensures Increasing(ns) && Owned(ns) <= t.Keys && Owned(ns) !! base.Keys && t - Owned(ns) == base
  {
    forall k | k in Owned(ns) ensures k in t && k !in base {
      var i :| 0 <= i < |ns| && (ns[i].0 == k || ns[i].1 == k);
    }
    var rest := t - Owned(ns);
    assert forall k | k in base :: k in rest && rest[k] == base[k];
    assert forall k | k in rest :: k in base;
  }

  /** The pipe vector goes out of scope: the shell has the descriptors it had before the pipes. */
  method DestroyPipes(p: Process, ghost base: Table)
    requires Carries(p.table, p.pipes, base) || (p.table == base && Emptied(p.pipes))
    modifies p
    ensures p.table == base && p.pipes == []
  {
    if Carries(p.table, p.pipes, base) {
      CarriesOwned(p.table, p.pipes, base);
    }
    assert Emptied(p.pipes) ==> Owned(p.pipes) == {};
    CloseAllPipes(p);
    p.pipes := [];
  }

  // ---------- what a stage runs with ----------

  function InputOf(base: Table, c: Command, i: nat): File
    requires 0 in base
  {
    if c.hasInput then Opened(i, 0) else if i > 0 then PipeRead(i - 1) else base[0]
  }

  function OutputOf(base: Table, c: Command, i: nat, n: nat): File
    requires 1 in base
  {
    if c.hasOutput then Opened(i, 1) else if i + 1 < n then PipeWrite(i) else base[1]
  }

  function ErrorOf(base: Table, c: Command, i: nat): File
    requires 2 in base
  {
    if c.hasError then Opened(i, 2) else base[2]
  }

  /** The descriptors of the shell, with the standard streams among them replaced; a closed stream stays closed. */
  function StageTable(base: Table, c: Command, i: nat, n: nat): Table {
    map k | k in base ::
      if k == 0 then InputOf(base, c, i) else if k == 1 then OutputOf(base, c, i, n)
      else if k == 2 then ErrorOf(base, c, i) else base[k]
  }

  /** A lone command's output file is opened below a closed standard output. */
  predicate OutputBelow(base: Table, c: Command) {
    c.hasOutput && !c.hasInput && 0 !in base && 1 !in base
  }

  /** A lone command's error file is opened below a closed standard error. */
  predicate ErrorBelow(base: Table, c: Command) {
    && c.hasError && !c.hasOutput && 2 !in base
    && if c.hasInput then 0 !in base && 1 !in base else 0 !in base || 1 !in base
  }

  /** The stage ends up as promised: always in a pipeline of several commands, and nearly always in one of one. */
  predicate Orderly(base: Table, c: Command, n: nat) {
    n > 1 || !(OutputBelow(base, c) || ErrorBelow(base, c))
  }

  // ---------- wiring one stage ----------

  function WithOpened(t: Table, fd: int, file: File): Table {
    if fd >= 0 then t[fd := file] else t
  }

  /** The handles of a stage's redirection files, opened in this order; -1 where there is none. */
  datatype Handles = Handles(input: int, output: int, error: int)

  ghost function AfterOpens(t: Table, i: nat, h: Handles): Table {
    WithOpened(WithOpened(WithOpened(t, h.input, Opened(i, 0)), h.output, Opened(i, 1)), h.error, Opened(i, 2))
  }

  ghost predicate HandlesFor(t: Table, i: nat, h: Handles) {
    var t1 := WithOpened(t, h.input, Opened(i, 0));
    var t2 := WithOpened(t1, h.output, Opened(i, 1));
    && (h.input == -1 || Lowest(t, h.input))
    && (h.output == -1 || Lowest(t1, h.output))
    && (h.error == -1 || Lowest(t2, h.error))
  }

  /** A stage has the handles its redirections call for. */
  predicate Fits(c: Command, h: Handles) {
    (c.hasInput <==> h.input >= 0) && (c.hasOutput <==> h.output >= 0) && (c.hasError <==> h.error >= 0)
  }

  function Copied(t: Table, from: int, to: int): Table {
    if from == to || from !in t then t else t[to := t[from]]
  }

  function Wired(t: Table, inputFd: int, outputFd: int, errorFd: int): Table {
    Copied(Copied(Copied(t, inputFd, 0), outputFd, 1), errorFd, 2)
  }

  function Without(t: Table, fd: int): Table {
    if fd >= 0 then t - {fd} else t
  }

  function WithoutHandles(t: Table, h: Handles): Table {
    Without(Without(Without(t, h.error), h.output), h.input)
  }

  function InputFd(c: Command, i: nat, ns: Numbers, h: Handles): int
    requires i <= |ns|
  {
    if c.hasInput then h.input else if i > 0 then ns[i - 1].0 else 0
  }

  function OutputFd(c: Command, i: nat, ns: Numbers, h: Handles): int
    requires i <= |ns|
  {
    if c.hasOutput then h.output else if i < |ns| then ns[i].1 else 1
  }

  function ErrorFd(c: Command, h: Handles): int {
    if c.hasError then h.error else 2
  }

  /** What remains of a wired stage once every pipe end and every handle is closed. */
  ghost function Settled(t: Table, c: Command, i: nat, ns: Numbers, h: Handles): Table
    requires i <= |ns|
  {
    var wired := Wired(AfterOpens(t, i, h), InputFd(c, i, ns, h), OutputFd(c, i, ns, h), ErrorFd(c, h));
    WithoutHandles(wired - Owned(ns), h)
  }

  /** Beyond the standard streams a stage has what the shell had. */
  lemma {:induction false} OthersKept(t: Table, base: Table, c: Command, i: nat, ns: Numbers, h: Handles, k: int)
    requires Carries(t, ns, base) && i <= |ns| && HandlesFor(t, i, h) && Fits(c, h) && k != 0 && k != 1 && k != 2
    ensures k in Settled(t, c, i, ns, h) <==> k in base
    ensures k in base ==> Settled(t, c, i, ns, h)[k] == base[k]
  {
    hide Owned, Increasing;
    CarriesOwned(t, ns, base);
  }

  /** With pipes, neither 0 nor 1 is free when a stage opens its files; no copy overwrites the source of a later one. */
  lemma {:induction false} SourcesApart(t: Table, base: Table, c: Command, i: nat, ns: Numbers, h: Handles)
    requires Carries(t, ns, base) && i <= |ns| && ns != [] && HandlesFor(t, i, h) && Fits(c, h)
    ensures 0 in t && 1 in t && OutputFd(c, i, ns, h) != 0 && ErrorFd(c, h) != 0 && ErrorFd(c, h) != 1
    ensures h.input != 0 && h.input != 1 && h.output != 0 && h.output != 1 && h.error != 0 && h.error != 1
  {
  }

  lemma {:induction false} InputOfMany(t: Table, base: Table, c: Command, i: nat, ns: Numbers, h: Handles)
    requires Carries(t, ns, base) && i <= |ns| && ns != [] && HandlesFor(t, i, h) && Fits(c, h)
    ensures var s := Settled(t, c, i, ns, h); (0 in s <==> 0 in base) && (0 in base ==> s[0] == InputOf(base, c, i))
  {
    hide Owned, Increasing;
    CarriesOwned(t, ns, base);
    SourcesApart(t, base, c, i, ns, h);
  }

  lemma {:induction false} OutputOfMany(t: Table, base: Table, c: Command, i: nat, ns: Numbers, h: Handles)
    requires Carries(t, ns, base) && i <= |ns| && ns != [] && HandlesFor(t, i, h) && Fits(c, h)
    ensures var s := Settled(t, c, i, ns, h);
            (1 in s <==> 1 in base) && (1 in base ==> s[1] == OutputOf(base, c, i, |ns| + 1))
  {
    hide Owned, Increasing;
    CarriesOwned(t, ns, base);
    SourcesApart(t, base, c, i, ns, h);
  }

  lemma {:induction false} ErrorOfMany(t: Table, base: Table, c: Command, i: nat, ns: Numbers, h: Handles)
    requires Carries(t, ns, base) && i <= |ns| && ns != [] && HandlesFor(t, i, h) && Fits(c, h)
    ensures var s := Settled(t, c, i, ns, h); (2 in s <==> 2 in base) && (2 in base ==> s[2] == ErrorOf(base, c, i))
  {
    hide Owned, Increasing;
    CarriesOwned(t, ns, base);
    SourcesApart(t, base, c, i, ns, h);
  }

  lemma {:induction false} StreamsOfOne(t: Table, c: Command, h: Handles)
    requires HandlesFor(t, 0, h) && Fits(c, h) && Orderly(t, c, 1)
    ensures var s := Settled(t, c, 0, [], h);
            && (0 in s <==> 0 in t) && (1 in s <==> 1 in t) && (2 in s <==> 2 in t)
            && (0 in t ==> s[0] == InputOf(t, c, 0))
            && (1 in t ==> s[1] == OutputOf(t, c, 0, 1))
            && (2 in t ==> s[2] == ErrorOf(t, c, 0))
  {
    assert forall k :: k !in Owned([]);
    var t1 := WithOpened(t, h.input, Opened(0, 0));
    var t2 := WithOpened(t1, h.output, Opened(0, 1));
    assert c.hasInput ==> (0 !in t ==> h.input <= 0) && (1 !in t ==> h.input <= 1) && (2 !in t ==> h.input <= 2);
    assert c.hasOutput ==> (0 !in t1 ==> h.output <= 0) && (1 !in t1 ==> h.output <= 1) && (2 !in t1 ==> h.output <= 2);
    assert c.hasError ==> (0 !in t2 ==> h.error <= 0) && (1 !in t2 ==> h.error <= 1) && (2 !in t2 ==> h.error <= 2);
  }

  /** Otherwise the stage gets a stream the shell had closed, or the output file in place of the error file. */
  lemma {:induction false} StreamsDisorderly(t: Table, c: Command, h: Handles)
    requires HandlesFor(t, 0, h) && Fits(c, h) && !Orderly(t, c, 1)
    ensures var s := Settled(t, c, 0, [], h);
            || (1 !in t && 1 in s)
            || (2 !in t && 2 in s)
            || (c.hasError && 2 in s && s[2] == Opened(0, 1))
  {
    assert forall k :: k !in Owned([]);
  }

  /** The standard streams of `s` are the promised ones. */
  predicate StreamsMatch(s: Table, base: Table, c: Command, i: nat, n: nat) {
    && (0 in s <==> 0 in base) && (1 in s <==> 1 in base) && (2 in s <==> 2 in base)
    && (0 in base ==> s[0] == InputOf(base, c, i))
    && (1 in base ==> s[1] == OutputOf(base, c, i, n))
    && (2 in base ==> s[2] == ErrorOf(base, c, i))
  }

  lemma {:induction false} TableMatches(s: Table, base: Table, c: Command, i: nat, n: nat)
    requires forall k: int :: k != 0 && k != 1 && k != 2 ==> (k in s <==> k in base) && (k in base ==> s[k] == base[k])
    ensures s == StageTable(base, c, i, n) <==> StreamsMatch(s, base, c, i, n)
  {
    var promised := StageTable(base, c, i, n);
    if StreamsMatch(s, base, c, i, n) {
      assert forall k | k in s :: k in promised && s[k] == promised[k];
      assert forall k | k in promised :: k in s;
    }
  }

  lemma {:induction false} StreamsExact(t: Table, base: Table, c: Command, i: nat, ns: Numbers, h: Handles)
    requires Carries(t, ns, base) && i <= |ns| && HandlesFor(t, i, h) && Fits(c, h)
    ensures StreamsMatch(Settled(t, c, i, ns, h), base, c, i, |ns| + 1) <==> Orderly(base, c, |ns| + 1)
  {
    hide Settled, HandlesFor, OutputBelow, ErrorBelow;
    if ns != [] {
      InputOfMany(t, base, c, i, ns, h);
      OutputOfMany(t, base, c, i, ns, h);
      ErrorOfMany(t, base, c, i, ns, h);
    } else {
      CarriesOwned(t, [], base);
      NoneOwned(t);
      if Orderly(base, c, 1) {
        StreamsOfOne(t, c, h);
      } else {
        StreamsDisorderly(t, c, h);
      }
    }
  }

  lemma {:induction false} NoneOwned(t: Table)
    ensures t - Owned([]) == t
  {
    assert forall k :: k !in Owned([]);
  }

  /** A stage ends with exactly its stage table if and only if it is orderly, whatever the shell had open. */
  lemma {:induction false} SettledExact(t: Table, base: Table, c: Command, i: nat, ns: Numbers, h: Handles)
    requires Carries(t, ns, base) && i <= |ns| && HandlesFor(t, i, h) && Fits(c, h)
    ensures Settled(t, c, i, ns, h) == StageTable(base, c, i, |ns| + 1) <==> Orderly(base, c, |ns| + 1)
  {
    hide Settled, Carries, HandlesFor, Orderly, StreamsMatch, StageTable;
    var s := Settled(t, c, i, ns, h);
    forall k: int ensures k != 0 && k != 1 && k != 2 ==> (k in s <==> k in base) && (k in base ==> s[k] == base[k]) {
      if k != 0 && k != 1 && k != 2 { OthersKept(t, base, c, i, ns, h, k); }
    }
    TableMatches(s, base, c, i, |ns| + 1);
    StreamsExact(t, base, c, i, ns, h);
  }

  /** Which redirection files can be opened, by stage and stream. */
  type Files = (nat, nat) -> bool

  /** Every redirection file of the command can be opened. */
  predicate Opens(c: Command, i: nat, opens: Files) {
    (c.hasInput ==> opens(i, 0)) && (c.hasOutput ==> opens(i, 1)) && (c.hasError ==> opens(i, 2))
  }

  /** Opens a redirection file if there is one; an empty handle where it could not be opened. */
  method OpenRedirect(p: Process, redirected: bool, opens: bool, file: File) returns (ok: bool, h: UniqueFd)
    modifies p`table
    ensures ok <==> (redirected ==> opens)
    ensures fresh(h) && h.process == p && (ok ==> (redirected <==> h.fd >= 0))
    ensures (h.fd == -1 || Lowest(old(p.table), h.fd)) && p.table == WithOpened(old(p.table), h.fd, file)
  {
    h := new UniqueFd(p, -1);
    if !redirected {
      return true, h;
    }
    if opens {
      var fd := p.Open(file);
      var handle := new UniqueFd(p, fd);
      h.MoveFrom(handle);
    }
    ok := h.fd >= 0;
  }

  ghost function HandlesOf(input: UniqueFd, output: UniqueFd, error: UniqueFd): Handles
    reads input, output, error
  {
    Handles(input.fd, output.fd, error.fd)
  }

  /** Opens the redirection files in turn and stops at the first that fails; the handles own what was opened. */
  method OpenRedirects(p: Process, c: Command, i: nat, opens: Files)
    returns (ok: bool, input: UniqueFd, output: UniqueFd, error: UniqueFd)
    modifies p`table
    ensures ok <==> Opens(c, i, opens)
    ensures fresh({input, output, error}) && input != output && input != error && output != error
    ensures input.process == p && output.process == p && error.process == p
    ensures HandlesFor(old(p.table), i, HandlesOf(input, output, error))
    ensures p.table == AfterOpens(old(p.table), i, HandlesOf(input, output, error))
    ensures ok ==> Fits(c, HandlesOf(input, output, error))
  {
    output := new UniqueFd(p, -1);
    error := new UniqueFd(p, -1);
    ok, input := OpenRedirect(p, c.hasInput, opens(i, 0), Opened(i, 0));
    if !ok {
      return;
    }
    ok, output := OpenRedirect(p, c.hasOutput, opens(i, 1), Opened(i, 1));
    if !ok {
      return;
    }
    ok, error := OpenRedirect(p, c.hasError, opens(i, 2), Opened(i, 2));
  }

  ghost predicate Closable(t: Table, h: Handles) {
    && (h.input >= 0 ==> h.input in t && h.input != h.output && h.input != h.error)
    && (h.output >= 0 ==> h.output in t && h.output != h.error)
    && (h.error >= 0 ==> h.error in t)
  }

  /** The handles go out of scope in reverse order; each closes the descriptor it owns. */
  method CloseHandles(p: Process, input: UniqueFd, output: UniqueFd, error: UniqueFd)
    requires input.process == p && output.process == p && error.process == p
    requires input != output && input != error && output != error
    requires Closable(p.table, HandlesOf(input, output, error))
    modifies p`table, input, output, error
    ensures p.table == WithoutHandles(old(p.table), old(HandlesOf(input, output, error)))
  {
    error.Reset(-1);
    output.Reset(-1);
    input.Reset(-1);
  }

  /** Makes stream `to` a copy of `from`. */
  method Duplicate(p: Process, from: int, to: int)
    requires from == to || from in p.table
    modifies p`table
    ensures p.table == Copied(old(p.table), from, to)
  {
    if from == to {
      return;
    }
    p.Dup2(from, to);
  }

  /** Puts the three streams in place, one after another. */
  method WireStreams(p: Process, inputFd: int, outputFd: int, errorFd: int)
    requires inputFd == 0 || inputFd in p.table
    requires outputFd == 1 || outputFd in p.table
    requires errorFd == 2 || errorFd in p.table
    modifies p`table
    ensures p.table == Wired(old(p.table), inputFd, outputFd, errorFd)
  {
    Duplicate(p, inputFd, 0);
    Duplicate(p, outputFd, 1);
    Duplicate(p, errorFd, 2);
  }

  lemma {:induction false} OpenedHandles(t: Table, i: nat, h: Handles)
    requires HandlesFor(t, i, h)
    ensures Closable(AfterOpens(t, i, h), h) && WithoutHandles(AfterOpens(t, i, h), h) == t
  {
  }

  /**
    What a forked stage does before it runs its command; `opens` says which of its redirection files can be opened.
    A failure to open one makes the child exit, so nothing is promised about its table then.
   */
  method ConfigureChildIo(p: Process, c: Command, i: nat, n: nat, opens: Files, ghost base: Table)
    returns (ok: bool)
    requires i < n && |p.pipes| == n - 1 && Carries(p.table, p.pipes, base)
    modifies p
    ensures ok <==> Opens(c, i, opens)
    ensures ok ==> (p.table == StageTable(base, c, i, n) <==> Orderly(base, c, n))
  {
    hide Carries, Owned, HandlesFor, AfterOpens, Wired, WithoutHandles, Closable, StageTable, Orderly;
    var input, output, error;
    ok, input, output, error := OpenRedirects(p, c, i, opens);
    if !ok {
      return;
    }
    var inputFd := if c.hasInput then input.fd else if i > 0 then p.pipes[i - 1].0 else 0;
    var outputFd := if c.hasOutput then output.fd else if i + 1 < n then p.pipes[i].1 else 1;
    var errorFd := if c.hasError then error.fd else 2;
    ghost var t, ns, h := old(p.table), p.pipes, HandlesOf(input, output, error);
    ReadyToWire(t, base, c, i, ns, h);
    WireStreams(p, inputFd, outputFd, errorFd);
    CloseAllPipes(p);
    CloseHandles(p, input, output, error);
    assert p.table == Settled(t, c, i, ns, h);
    SettledExact(t, base, c, i, ns, h);
  }

  lemma {:induction false} ReadyToWire(t: Table, base: Table, c: Command, i: nat, ns: Numbers, h: Handles)
    requires Carries(t, ns, base) && i <= |ns| && HandlesFor(t, i, h) && Fits(c, h)
    ensures var t3, from, out, err := AfterOpens(t, i, h), InputFd(c, i, ns, h), OutputFd(c, i, ns, h), ErrorFd(c, h);
            var wired := Wired(t3, from, out, err);
            && (from == 0 || from in t3) && (out == 1 || out in t3) && (err == 2 || err in t3)
            && Increasing(ns) && Owned(ns) <= wired.Keys && Closable(wired - Owned(ns), h)
  {
    hide Owned, Increasing;
    CarriesOwned(t, ns, base);
  }

  // ---------- executing a pipeline ----------

  /** Stage `i` is wired if it has words and its files open; it has its stage table exactly when it is orderly. */
  ghost predicate StageOf(stage: Option<Process>, base: Table, commands: seq<Command>, i: nat, opens: Files)
    requires i < |commands|
    reads if stage.Some? then {stage.value} else {}
  {
    && (stage.Some? <==> commands[i].args != [] && Opens(commands[i], i, opens))
    && (stage.Some? ==>
          (stage.value.table == StageTable(base, commands[i], i, |commands|) <==>
           Orderly(base, commands[i], |commands|)))
  }

  ghost predicate StagesOf(stages: seq<Option<Process>>, base: Table, commands: seq<Command>, opens: Files)
    reads set i | 0 <= i < |stages| && stages[i].Some? :: stages[i].value
  {
    |stages| <= |commands| && forall i | 0 <= i < |stages| :: StageOf(stages[i], base, commands, i, opens)
  }

  /** Forks and wires one stage. */
  method LaunchStage(p: Process, commands: seq<Command>, i: nat, opens: Files, ghost base: Table)
    returns (stage: Option<Process>)
    requires i < |commands| && commands[i].args != []
    requires |p.pipes| == |commands| - 1 && Carries(p.table, p.pipes, base)
    ensures StageOf(stage, base, commands, i, opens) && (stage.Some? ==> fresh(stage.value))
  {
    hide Carries, StageTable, Orderly;
    var child := p.Fork();
    var ok := ConfigureChildIo(child, commands[i], i, |commands|, opens, base);
    stage := if ok then Some(child) else None;
  }

  /** Forks the stages in turn, up to the first fork that fails. */
  method LaunchStages(p: Process, commands: seq<Command>, forks: nat -> bool, opens: Files, ghost base: Table)
    returns (complete: bool, stages: seq<Option<Process>>)
    requires |p.pipes| == |commands| - 1 && Carries(p.table, p.pipes, base)
    ensures complete <==> forall i | 0 <= i < |commands| && commands[i].args != [] :: forks(i)
    ensures complete ==> |stages| == |commands|
    ensures !complete ==>
              && |stages| < |commands| && commands[|stages|].args != [] && !forks(|stages|)
              && forall i | 0 <= i < |stages| && commands[i].args != [] :: forks(i)
    ensures StagesOf(stages, base, commands, opens)
    ensures forall i | 0 <= i < |stages| && stages[i].Some? :: fresh(stages[i].value)
    ensures forall i, j | 0 <= i < j < |stages| && stages[i].Some? && stages[j].Some? ::
              stages[i].value != stages[j].value
  {
    hide Carries, StageTable, Orderly;
    stages := [];
    for i := 0 to |commands|
      invariant |stages| == i && StagesOf(stages, base, commands, opens)
      invariant forall j | 0 <= j < i && commands[j].args != [] :: forks(j)
      invariant forall j | 0 <= j < i && stages[j].Some? :: fresh(stages[j].value)
      invariant forall j, k | 0 <= j < k < i && stages[j].Some? && stages[k].Some? :: stages[j].value != stages[k].value
    {
      if commands[i].args == [] {
        stages := stages + [None];
        continue;
      }
      if !forks(i) {
        return false, stages;
      }
      var stage := LaunchStage(p, commands, i, opens, base);
      stages := stages + [stage];
    }
    complete := true;
  }

  /**
    Launches the stages of a pipeline. `refused` is the first pipe the system refuses, `forks` says which forks
    succeed. On every return the shell's own descriptors are what they were.
   */
  method LaunchPipeline(p: Process, commands: seq<Command>, refused: nat, forks: nat -> bool, opens: Files)
    returns (launched: bool, stages: seq<Option<Process>>)
    requires p.pipes == [] && commands != []
    modifies p
    ensures p.table == old(p.table) && p.pipes == []
    ensures launched <==>
            && refused >= |commands| - 1
            && forall i | 0 <= i < |commands| && commands[i].args != [] :: forks(i)
    ensures launched ==> |stages| == |commands|
    ensures refused < |commands| - 1 ==> stages == []
    ensures !launched && refused >= |commands| - 1 ==>
              && |stages| < |commands| && commands[|stages|].args != [] && !forks(|stages|)
              && forall i | 0 <= i < |stages| && commands[i].args != [] :: forks(i)
    ensures StagesOf(stages, old(p.table), commands, opens)
    ensures forall i | 0 <= i < |stages| && stages[i].Some? :: fresh(stages[i].value)
    ensures forall i, j | 0 <= i < j < |stages| && stages[i].Some? && stages[j].Some? ::
              stages[i].value != stages[j].value
  {
    hide Carries, StageOf;
    ghost var base := p.table;
    stages := [];
    launched := CreatePipes(p, |commands| - 1, refused);
    if launched {
      launched, stages := LaunchStages(p, commands, forks, opens, base);
      ClosePipes(p, base);
    }
    DestroyPipes(p, base);
  }

  /** Closing the shell's copies of the pipe ends leaves what it had before the pipes. */
  method ClosePipes(p: Process, ghost base: Table)
    requires Carries(p.table, p.pipes, base)
    modifies p
    ensures p.table == base && Emptied(p.pipes)
  {
    CarriesOwned(p.table, p.pipes, base);
    CloseAllPipes(p);
  }

  /** A builtin in the shell itself: its files are opened in the shell's own table and closed on every return. */
  method ExecuteParentBuiltin(p: Process, c: Command, opens: Files) returns (ran: bool)
    modifies p`table
    ensures p.table == old(p.table) && (ran <==> Opens(c, 0, opens))
  {
    hide Lowest;
    var input, output, error;
    ran, input, output, error := OpenRedirects(p, c, 0, opens);
    OpenedHandles(old(p.table), 0, HandlesOf(input, output, error));
    CloseHandles(p, input, output, error);
  }

  datatype Result = Nothing | InShell(ran: bool) | Launched(complete: bool, stages: seq<Option<Process>>)

  /**
    Every way to execute a pipeline leaves the shell with the descriptors it had. All stages are launched unless a pipe
    is refused, which leaves none, or a fork, which leaves those before it. `inShell` says whether the first word names
    a builtin that has to run in the shell itself.
   */
  method ExecutePipeline(p: Process, pipeline: Pipeline, inShell: bool, refused: nat, forks: nat -> bool, opens: Files)
    returns (r: Result)
    requires p.pipes == []
    modifies p
    ensures p.table == old(p.table) && p.pipes == []
    ensures r.Nothing? <==> pipeline.commands == []
    ensures r.InShell? <==>
            !pipeline.background && |pipeline.commands| == 1 && pipeline.commands[0].args != [] && inShell
    ensures r.InShell? ==>
              var c := pipeline.commands[0];
              r.ran <==> (c.hasInput ==> opens(0, 0)) && (c.hasOutput ==> opens(0, 1)) && (c.hasError ==> opens(0, 2))
    ensures r.Launched? ==>
              (r.complete <==>
                && refused >= |pipeline.commands| - 1
                && forall i | 0 <= i < |pipeline.commands| && pipeline.commands[i].args != [] :: forks(i))
    ensures r.Launched? && r.complete ==> |r.stages| == |pipeline.commands|
    ensures r.Launched? && refused < |pipeline.commands| - 1 ==> r.stages == []
    ensures r.Launched? && !r.complete && refused >= |pipeline.commands| - 1 ==>
              && |r.stages| < |pipeline.commands|
              && pipeline.commands[|r.stages|].args != [] && !forks(|r.stages|)
              && forall i | 0 <= i < |r.stages| && pipeline.commands[i].args != [] :: forks(i)
    ensures r.Launched? ==> StagesOf(r.stages, old(p.table), pipeline.commands, opens)
    ensures r.Launched? ==> forall i | 0 <= i < |r.stages| && r.stages[i].Some? :: fresh(r.stages[i].value)
    ensures r.Launched? ==>
              forall i, j | 0 <= i < j < |r.stages| && r.stages[i].Some? && r.stages[j].Some? ::
                r.stages[i].value != r.stages[j].value
  {
    if pipeline.commands == [] {
      return Nothing;
    }
    if !pipeline.background && |pipeline.commands| == 1 && pipeline.commands[0].args != [] && inShell {
      var ran := ExecuteParentBuiltin(p, pipeline.commands[0], opens);
      return InShell(ran);
    }
    var complete, stages := LaunchPipeline(p, pipeline.commands, refused, forks, opens);
    r := Launched(complete, stages);
  }

  // ---------- pipe ends reach only the stages they join ----------

  /** Descriptors that refer to no pipe of this pipeline. */
  ghost predicate NoPipes(base: Table) {
    forall k | k in base :: base[k].Inherited?
  }

  /** Where a file is open in a table. */
  ghost function At(table: Table, file: File): set<int> {
    set k | k in table && table[k] == file
  }

  /**
    The write end of pipe `j` arrives in stage `j`, as its standard output, if and only if standard output was open
    in the shell and the stage does not redirect it; the read end likewise in stage `j + 1`. No other descriptor of
    any stage, and none of the shell, refers to either end.
   */
  lemma {:induction false} PipeIsolation(base: Table, c: Command, i: nat, n: nat, j: nat)
    requires NoPipes(base) && i < n && j + 1 < n
    ensures At(StageTable(base, c, i, n), PipeWrite(j)) == if i == j && !c.hasOutput && 1 in base then {1} else {}
    ensures At(StageTable(base, c, i, n), PipeRead(j)) == if i == j + 1 && !c.hasInput && 0 in base then {0} else {}
    ensures At(base, PipeWrite(j)) == {} && At(base, PipeRead(j)) == {}
  {
    var t := StageTable(base, c, i, n);
    forall k
      ensures k in At(t, PipeWrite(j)) <==> k == 1 && i == j && !c.hasOutput && 1 in base
      ensures k in At(t, PipeRead(j)) <==> k == 0 && i == j + 1 && !c.hasInput && 0 in base
      ensures k !in At(base, PipeWrite(j)) && k !in At(base, PipeRead(j))
    {
      assert k in base ==> base[k].Inherited?;
    }
  }

  /** A redirection file is open in its own stage only, as the stream it is for, if the shell has that stream. */
  lemma {:induction false} FileIsolation(base: Table, c: Command, i: nat, n: nat, stage: nat, stream: nat)
    requires NoPipes(base) && i < n
    ensures At(StageTable(base, c, i, n), Opened(stage, stream)) ==
            if stage == i && stream in base &&
               ((stream == 0 && c.hasInput) || (stream == 1 && c.hasOutput) || (stream == 2 && c.hasError))
            then {stream as int} else {}
    ensures At(base, Opened(stage, stream)) == {}
  {
    var t := StageTable(base, c, i, n);
    assert forall k | k in base :: base[k].Inherited?;
    forall k
      ensures k in At(t, Opened(stage, stream)) ==>
                && stage == i && k == stream
                && ((k == 0 && c.hasInput) || (k == 1 && c.hasOutput) || (k == 2 && c.hasError))
    {
    }
  }

  /** Everything else a stage has, it has from the shell. */
  lemma {:induction false} InheritedKept(base: Table, c: Command, i: nat, n: nat, k: int)
    requires i < n && k in base
    requires k == 0 ==> !c.hasInput && i == 0
    requires k == 1 ==> !c.hasOutput && i + 1 == n
    requires k == 2 ==> !c.hasError
    ensures k in StageTable(base, c, i, n) && StageTable(base, c, i, n)[k] == base[k]
  {
  }
}
