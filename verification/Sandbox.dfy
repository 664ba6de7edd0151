/**
  The start of a sandboxed program: a supervisor attaches its worker to a control group and then releases it with a
  token through a pipe. Every interleaving of the two is a run; the supervisor may also die at any point.
 */
module Sandbox {

  datatype Supervisor =
    | ClosingRead                 // drops its copy of the read end
    | Attaching
    | Rejecting                   // attach failed: kills the worker
    | Releasing                   // writes the token
    | Revoking                    // the write failed: kills the worker
    | ClosingWrite(failed: bool)
    | Waiting(failed: bool)
    | Returned(code: int)
    | Dead

  datatype Worker =
    | RecordingParent
    | RequestingDeathSignal
    | CheckingParent
    | ClosingOwnWrite
    | Reading
    | ClosingOwnRead(token: bool)
    | Released                    // sets up the namespaces and looks for the program
    | Program
    | Ended(code: int)

  datatype State = State(
    sup: Supervisor, worker: Worker,
    supRead: bool, supWrite: bool, ownRead: bool, ownWrite: bool,   // open copies of the pipe's ends
    bytes: nat,                                                       // tokens in the pipe
    attached: bool, released: bool, started: bool,
    deathSignal: bool, sawSupervisor: bool)

  datatype SupStep =
    | ClosesRead | Attaches(ok: bool) | Rejects | Writes(ok: bool) | Revokes | ClosesWrite | Returns | WaitFails | Dies

  datatype WorkerStep =
    | RecordsParent | RequestsDeathSignal(ok: bool) | ChecksParent | ClosesOwnWrite
    | ReadsToken | ReadsEnd | ReadFails | ClosesOwnRead
    | SetupFails(code: int) | Starts | Ends(code: int) | IsKilled(signal: nat)

  datatype Step = Sup(s: SupStep) | Work(w: WorkerStep)

  const SIGKILL := 9

  function Init(): State {
    State(ClosingRead, RecordingParent, true, true, true, true, 0, false, false, false, false, false)
  }

  predicate SupAlive(s: State) {
    !s.sup.Returned? && !s.sup.Dead?
  }

  predicate SupEnabled(s: State, step: SupStep) {
    match step
    case ClosesRead => s.sup.ClosingRead?
    case Attaches(_) => s.sup.Attaching?
    case Rejects => s.sup.Rejecting?
    case Writes(ok) => s.sup.Releasing? && (ok ==> s.ownRead)
    case Revokes => s.sup.Revoking?
    case ClosesWrite => s.sup.ClosingWrite?
    case Returns => s.sup.Waiting? && s.worker.Ended?
    case WaitFails => s.sup.Waiting?
    case Dies => SupAlive(s)
  }

  predicate WorkerEnabled(s: State, step: WorkerStep) {
    match step
    case RecordsParent => s.worker.RecordingParent?
    case RequestsDeathSignal(_) => s.worker.RequestingDeathSignal?
    case ChecksParent => s.worker.CheckingParent?
    case ClosesOwnWrite => s.worker.ClosingOwnWrite?
    case ReadsToken => s.worker.Reading? && s.bytes > 0
    case ReadsEnd => s.worker.Reading? && s.bytes == 0 && !s.supWrite && !s.ownWrite
    case ReadFails => s.worker.Reading?
    case ClosesOwnRead => s.worker.ClosingOwnRead?
    case SetupFails(code) => s.worker.Released? && code in {1, 2, 126, 127}
    case Starts => s.worker.Released?
    case Ends(_) => s.worker.Program?
    case IsKilled(_) => !s.worker.Ended?
  }

  predicate Enabled(s: State, step: Step) {
    match step
    case Sup(a) => SupEnabled(s, a)
    case Work(a) => WorkerEnabled(s, a)
  }

  /** Moves the worker on; an ended worker holds no descriptors. */
  function MoveTo(s: State, p: Worker): State {
    s.(worker := p, ownRead := s.ownRead && !p.Ended?, ownWrite := s.ownWrite && !p.Ended?)
  }

  function Killed(s: State): State {
    MoveTo(s, if s.worker.Ended? then s.worker else Ended(128 + SIGKILL))
  }

  /** The supervisor's process ends: its descriptors close and a worker that asked for it gets the death signal. */
  function Orphaned(s: State, end: Supervisor): State {
    MoveTo(s, if s.deathSignal && !s.worker.Ended? then Ended(128 + SIGKILL) else s.worker)
      .(sup := end, supRead := false, supWrite := false)
  }

  function SupApply(s: State, step: SupStep): State
    requires SupEnabled(s, step)
  {
    match step
    case ClosesRead => s.(sup := Attaching, supRead := false)
    case Attaches(ok) => s.(sup := if ok then Releasing else Rejecting, attached := ok)
    case Rejects => Killed(s).(sup := ClosingWrite(true))
    case Writes(ok) =>
      s.(sup := if ok then ClosingWrite(false) else Revoking,
         bytes := if ok then s.bytes + 1 else s.bytes, released := ok)
    case Revokes => Killed(s).(sup := ClosingWrite(false))
    case ClosesWrite => s.(sup := Waiting(s.sup.failed), supWrite := false)
    case Returns => s.(sup := Returned(if s.sup.failed then 1 else s.worker.code))
    case WaitFails => Orphaned(s, Returned(1))
    case Dies => Orphaned(s, Dead)
  }

  function WorkerApply(s: State, step: WorkerStep): (t: State)
    requires WorkerEnabled(s, step)
    ensures t.sup == s.sup && t.released == s.released && t.attached == s.attached
    ensures t.started == (s.started || step == Starts)
  {
    match step
    case RecordsParent => s.(worker := RequestingDeathSignal, sawSupervisor := SupAlive(s))
    case RequestsDeathSignal(ok) => MoveTo(s, if ok then CheckingParent else Ended(1)).(deathSignal := ok)
    case ChecksParent => MoveTo(s, if SupAlive(s) == s.sawSupervisor then ClosingOwnWrite else Ended(1))
    case ClosesOwnWrite => s.(worker := Reading, ownWrite := false)
    case ReadsToken => s.(worker := ClosingOwnRead(true), bytes := s.bytes - 1)
    case ReadsEnd => s.(worker := ClosingOwnRead(false))
    case ReadFails => s.(worker := ClosingOwnRead(false))
    case ClosesOwnRead => MoveTo(s, if s.worker.token then Released else Ended(1)).(ownRead := false)
    case SetupFails(code) => MoveTo(s, Ended(code))
    case Starts => s.(worker := Program, started := true)
    case Ends(code) => MoveTo(s, Ended(code))
    case IsKilled(signal) => MoveTo(s, Ended(128 + signal))
  }

  function Apply(s: State, step: Step): State
    requires Enabled(s, step)
  {
    match step
    case Sup(a) => SupApply(s, a)
    case Work(a) => WorkerApply(s, a)
  }

  function RunFrom(s: State, steps: seq<Step>): (r: seq<State>)
    ensures |r| <= 1
  {
    if steps == [] then [s]
    else
      var r := RunFrom(s, steps[..|steps| - 1]);
      if r != [] && Enabled(r[0], steps[|steps| - 1]) then [Apply(r[0], steps[|steps| - 1])] else []
  }

  /** The states some run from the fork on reaches. */
  ghost predicate Reachable(s: State) {
    exists steps :: RunFrom(Init(), steps) == [s]
  }

  // ---------- the invariant ----------

  /** The token exists only after a successful attach, and passes from the pipe to the worker. */
  ghost predicate TokenSound(s: State) {
    && (s.released ==> s.attached)
    && (s.bytes > 0 ==> s.released)
    && ((s.worker == ClosingOwnRead(true) || s.worker.Released? || s.worker.Program?) ==> s.released)
    && (s.started ==> s.released)
    && (s.worker.Program? ==> s.started)
    && (s.worker.Ended? && !s.started ==> s.worker.code != 0)
  }

  /** Where the supervisor is determines what it has done. */
  ghost predicate SupervisorSound(s: State) {
    && (s.sup.ClosingRead? || s.sup.Attaching? || s.sup.Rejecting? ==> !s.attached)
    && (s.sup.Releasing? || s.sup.Revoking? ==> s.attached && !s.released)
    && (s.sup == ClosingWrite(true) || s.sup == Waiting(true) ==> !s.attached)
    && (s.sup == ClosingWrite(false) || s.sup == Waiting(false) ==> s.released || s.worker.Ended?)
    && (s.supWrite <==> SupAlive(s) && !s.sup.Waiting?)
    && (s.supRead <==> s.sup.ClosingRead?)
    && (s.sup == Returned(0) ==> s.started)
  }

  /** Where the worker is determines which ends it holds; it never reads while it could itself write. */
  ghost predicate WorkerSound(s: State) {
    && (s.ownWrite <==>
          || s.worker.RecordingParent? || s.worker.RequestingDeathSignal?
          || s.worker.CheckingParent? || s.worker.ClosingOwnWrite?)
    && (s.ownRead <==> s.ownWrite || s.worker.Reading? || s.worker.ClosingOwnRead?)
  }

  /** The worker has asked for the death signal and looked at its parent again. */
  predicate Guarded(p: Worker) {
    p.ClosingOwnWrite? || p.Reading? || p.ClosingOwnRead? || p.Released? || p.Program?
  }

  ghost predicate GuardSound(s: State) {
    && (s.worker.CheckingParent? || Guarded(s.worker) ==> s.deathSignal)
    && (Guarded(s.worker) ==> (SupAlive(s) <==> s.sawSupervisor))
  }

  ghost predicate Inv(s: State) {
    TokenSound(s) && SupervisorSound(s) && WorkerSound(s) && GuardSound(s)
  }

  lemma {:induction false} SupervisorKeeps(s: State, step: SupStep)
    requires Inv(s) && SupEnabled(s, step)
    ensures TokenSound(SupApply(s, step)) && SupervisorSound(SupApply(s, step))
  {
  }

  lemma {:induction false} SupervisorGuards(s: State, step: SupStep)
    requires Inv(s) && SupEnabled(s, step)
    ensures WorkerSound(SupApply(s, step)) && GuardSound(SupApply(s, step))
  {
  }

  lemma {:induction false} WorkerKeeps(s: State, step: WorkerStep)
    requires Inv(s) && WorkerEnabled(s, step)
    ensures TokenSound(WorkerApply(s, step)) && SupervisorSound(WorkerApply(s, step))
  {
  }

  lemma {:induction false} WorkerGuards(s: State, step: WorkerStep)
    requires Inv(s) && WorkerEnabled(s, step)
    ensures WorkerSound(WorkerApply(s, step)) && GuardSound(WorkerApply(s, step))
  {
  }

  lemma {:induction false} InvKept(s: State, step: Step)
    requires Inv(s) && Enabled(s, step)
    ensures Inv(Apply(s, step))
  {
    hide SupApply, WorkerApply, SupEnabled, WorkerEnabled, TokenSound, SupervisorSound, WorkerSound, GuardSound;
    match step {
      case Sup(a) => SupervisorKeeps(s, a); SupervisorGuards(s, a);
      case Work(a) => WorkerKeeps(s, a); WorkerGuards(s, a);
    }
  }

  lemma {:induction false} InvHolds(steps: seq<Step>, s: State)
    requires RunFrom(Init(), steps) == [s]
    ensures Inv(s)
  {
    if steps != [] {
      var last := |steps| - 1;
      var r := RunFrom(Init(), steps[..last]);
      InvHolds(steps[..last], r[0]);
      InvKept(r[0], steps[last]);
    }
  }

  // ---------- what happened, told by the steps themselves ----------

  /** The records a state keeps of its run are true. */
  ghost predicate Recorded(steps: seq<Step>, s: State) {
    && (s.attached <==> Sup(Attaches(true)) in steps)
    && (s.released <==> Sup(Writes(true)) in steps)
    && (s.started <==> Work(Starts) in steps)
    && (Sup(Attaches(false)) in steps ==> !s.attached)
    && (Sup(Writes(false)) in steps ==> !s.released)
  }

  /** Where the supervisor stands, by the steps it has taken. */
  ghost predicate SupervisorTook(steps: seq<Step>, s: State) {
    && (s.sup.ClosingRead? || s.sup.Attaching? ==> Sup(Attaches(true)) !in steps && Sup(Attaches(false)) !in steps)
    && (s.sup.ClosingRead? || s.sup.Attaching? || s.sup.Rejecting? || s.sup.Releasing? ==>
          Sup(Writes(true)) !in steps && Sup(Writes(false)) !in steps)
    && (s.sup.Releasing? || s.sup.Revoking? ==> Sup(Attaches(true)) in steps && Sup(Attaches(false)) !in steps)
    && (s.sup.Rejecting? ==> Sup(Attaches(false)) in steps && Sup(Attaches(true)) !in steps)
    && (s.sup.ClosingWrite? || s.sup.Waiting? ==> (s.sup.failed <==> Sup(Attaches(false)) in steps))
  }

  /** How the supervisor returned. */
  ghost predicate ReturnTold(steps: seq<Step>, s: State) {
    && (SupAlive(s) ==> Sup(WaitFails) !in steps && Sup(Returns) !in steps && Sup(Dies) !in steps)
    && (s.sup.Returned? && Sup(WaitFails) in steps ==> s.sup.code == 1)
    && (s.sup.Returned? && Sup(WaitFails) !in steps ==>
          && Sup(Returns) in steps && s.worker.Ended?
          && s.sup.code == if Sup(Attaches(false)) in steps then 1 else s.worker.code)
  }

  /** How the worker ended. */
  ghost predicate EndTold(steps: seq<Step>, s: State) {
    && (!s.worker.Ended? ==> forall c :: Work(Ends(c)) !in steps && Work(SetupFails(c)) !in steps)
    && (forall c | Work(Ends(c)) in steps || Work(SetupFails(c)) in steps :: s.worker == Ended(c))
  }

  ghost predicate History(steps: seq<Step>, s: State) {
    Recorded(steps, s) && SupervisorTook(steps, s) && ReturnTold(steps, s) && EndTold(steps, s)
  }

  lemma {:induction false} OneMore(steps: seq<Step>, step: Step)
    ensures forall x :: x in steps + [step] <==> x in steps || x == step
  {
  }

  lemma {:induction false} SupervisorRecords(steps: seq<Step>, s: State, a: SupStep)
    requires Inv(s) && History(steps, s) && SupEnabled(s, a)
    ensures Recorded(steps + [Sup(a)], SupApply(s, a))
  {
    OneMore(steps, Sup(a));
    match a {
      case Attaches(_) =>
      case Writes(_) =>
      case _ =>
    }
  }

  lemma {:induction false} SupervisorTakes(steps: seq<Step>, s: State, a: SupStep)
    requires Inv(s) && History(steps, s) && SupEnabled(s, a)
    ensures SupervisorTook(steps + [Sup(a)], SupApply(s, a))
  {
    OneMore(steps, Sup(a));
    match a {
      case Attaches(_) =>
      case Writes(_) =>
      case _ =>
    }
  }

  lemma {:induction false} SupervisorReturns(steps: seq<Step>, s: State, a: SupStep)
    requires Inv(s) && History(steps, s) && SupEnabled(s, a)
    ensures ReturnTold(steps + [Sup(a)], SupApply(s, a)) && EndTold(steps + [Sup(a)], SupApply(s, a))
  {
    OneMore(steps, Sup(a));
    match a {
      case Returns =>
      case WaitFails =>
      case _ =>
    }
  }

  lemma {:induction false} WorkerRecords(steps: seq<Step>, s: State, a: WorkerStep)
    requires Inv(s) && History(steps, s) && WorkerEnabled(s, a)
    ensures Recorded(steps + [Work(a)], WorkerApply(s, a)) && SupervisorTook(steps + [Work(a)], WorkerApply(s, a))
  {
    hide WorkerApply, WorkerEnabled, Inv;
    OneMore(steps, Work(a));
  }

  lemma {:induction false} WorkerReturns(steps: seq<Step>, s: State, a: WorkerStep)
    requires Inv(s) && History(steps, s) && WorkerEnabled(s, a)
    ensures ReturnTold(steps + [Work(a)], WorkerApply(s, a)) && EndTold(steps + [Work(a)], WorkerApply(s, a))
  {
    OneMore(steps, Work(a));
    match a {
      case SetupFails(_) =>
      case Ends(_) =>
      case _ =>
    }
  }

  lemma {:induction false} HistoryHolds(steps: seq<Step>, s: State)
    requires RunFrom(Init(), steps) == [s]
    ensures History(steps, s)
  {
    hide Recorded, SupervisorTook, ReturnTold, EndTold, Inv, Enabled, Apply;
    if steps == [] {
      NoHistory();
    } else {
      var last := |steps| - 1;
      var r := RunFrom(Init(), steps[..last]);
      HistoryHolds(steps[..last], r[0]);
      InvHolds(steps[..last], r[0]);
      assert steps == steps[..last] + [steps[last]];
      HistoryKept(steps[..last], r[0], steps[last]);
    }
  }

  lemma {:induction false} HistoryKept(steps: seq<Step>, s: State, step: Step)
    requires Inv(s) && History(steps, s) && Enabled(s, step)
    ensures History(steps + [step], Apply(s, step))
  {
    hide Recorded, SupervisorTook, ReturnTold, EndTold, Inv, SupEnabled, WorkerEnabled, SupApply, WorkerApply;
    match step {
      case Sup(a) =>
        SupervisorRecords(steps, s, a);
        SupervisorTakes(steps, s, a);
        SupervisorReturns(steps, s, a);
      case Work(a) =>
        WorkerRecords(steps, s, a);
        WorkerReturns(steps, s, a);
    }
  }

  lemma {:induction false} NoHistory()
    ensures History([], Init())
  {
  }

  // ---------- what follows ----------

  /** A run up to step `k` is a run, and step `k` was possible after it. */
  lemma {:induction false} Before(steps: seq<Step>, s: State, k: nat) returns (t: State)
    requires RunFrom(Init(), steps) == [s] && k < |steps|
    ensures RunFrom(Init(), steps[..k]) == [t] && Enabled(t, steps[k])
  {
    hide Enabled, Apply;
    var last := |steps| - 1;
    var r := RunFrom(Init(), steps[..last]);
    if k == last {
      t := r[0];
    } else {
      t := Before(steps[..last], r[0], k);
      assert steps[..last][..k] == steps[..k];
    }
  }

  /** The program starts only after the attach succeeded and then the token was written, in this order. */
  lemma {:induction false} StartsOnlyReleased(steps: seq<Step>, s: State, k: nat) returns (i: nat, j: nat)
    requires RunFrom(Init(), steps) == [s] && k < |steps| && steps[k] == Work(Starts)
    ensures i < j < k && steps[i] == Sup(Attaches(true)) && steps[j] == Sup(Writes(true))
  {
    var t := Before(steps, s, k);
    InvHolds(steps[..k], t);
    HistoryHolds(steps[..k], t);
    j :| 0 <= j < k && steps[..k][j] == Sup(Writes(true));
    var u := Before(steps, s, j);
    InvHolds(steps[..j], u);
    HistoryHolds(steps[..j], u);
    i :| 0 <= i < j && steps[..j][i] == Sup(Attaches(true));
  }

  /** A run in which the attach or the write of the token failed never starts the program. */
  lemma {:induction false} NeverStarts(steps: seq<Step>, s: State)
    requires RunFrom(Init(), steps) == [s] && (Sup(Attaches(false)) in steps || Sup(Writes(false)) in steps)
    ensures Work(Starts) !in steps
  {
    InvHolds(steps, s);
    HistoryHolds(steps, s);
  }

  /** Nor does one in which the supervisor died before the write. */
  lemma {:induction false} NeverStartsAfterDeath(steps: seq<Step>, s: State)
    requires RunFrom(Init(), steps) == [s] && Sup(Dies) in steps && Sup(Writes(true)) !in steps
    ensures Work(Starts) !in steps
  {
    InvHolds(steps, s);
    HistoryHolds(steps, s);
  }

  /**
    What the supervisor returns: 1 if its wait failed, 1 if the attach failed, and otherwise the code its worker
    ended with.
   */
  lemma {:induction false} ReturnedCode(steps: seq<Step>, s: State)
    requires RunFrom(Init(), steps) == [s] && s.sup.Returned?
    ensures Sup(WaitFails) in steps ==> s.sup.code == 1
    ensures Sup(WaitFails) !in steps ==>
              s.worker.Ended? && s.sup.code == if Sup(Attaches(false)) in steps then 1 else s.worker.code
  {
    HistoryHolds(steps, s);
  }

  /** The code of a program that ended, or of a setup that failed, is handed on unchanged. */
  lemma {:induction false} ProgramCodeHandedOn(steps: seq<Step>, s: State, c: int)
    requires RunFrom(Init(), steps) == [s] && (Work(Ends(c)) in steps || Work(SetupFails(c)) in steps)
    requires s.sup.Returned? && Sup(WaitFails) !in steps
    ensures s.sup.code == c
  {
    InvHolds(steps, s);
    HistoryHolds(steps, s);
    assert s.worker == Ended(c);
    EndedAttached(steps, s, c);
  }

  lemma {:induction false} EndedAttached(steps: seq<Step>, s: State, c: int)
    requires RunFrom(Init(), steps) == [s] && (Work(Ends(c)) in steps || Work(SetupFails(c)) in steps)
    ensures Sup(Attaches(false)) !in steps
  {
    var k :| 0 <= k < |steps| && (steps[k] == Work(Ends(c)) || steps[k] == Work(SetupFails(c)));
    var t := Before(steps, s, k);
    InvHolds(steps[..k], t);
    HistoryHolds(steps[..k], t);
    HistoryHolds(steps, s);
    var j :| 0 <= j < k && steps[..k][j] == Sup(Attaches(true));
    assert steps[j] == Sup(Attaches(true));
  }

  /** A supervisor that reports success did start the program, and its program reported success. */
  lemma {:induction false} SuccessMeansStarted(steps: seq<Step>, s: State)
    requires RunFrom(Init(), steps) == [s] && s.sup == Returned(0)
    ensures Sup(Attaches(true)) in steps && Sup(Writes(true)) in steps && Work(Starts) in steps
    ensures s.worker == Ended(0)
  {
    InvHolds(steps, s);
    HistoryHolds(steps, s);
  }

  /** It does happen. */
  lemma {:induction false} SuccessReachable() returns (s: State)
    ensures Reachable(s) && s.sup == Returned(0)
  {
    hide Reachable, RunFrom;
    s := TokenWritten();
    s := WorkerGoesOn(s);
    s := Reached(s, Work(Ends(0)));
    s := Reached(s, Sup(ClosesWrite));
    s := Reached(s, Sup(Returns));
  }

  /** The program runs under a living supervisor exactly when the worker, on recording its parent, still saw it. */
  lemma {:induction false} ProgramSupervised(s: State)
    requires Reachable(s) && s.worker.Program?
    ensures SupAlive(s) <==> s.sawSupervisor
  {
    var steps :| RunFrom(Init(), steps) == [s];
    InvHolds(steps, s);
  }

  lemma {:induction false} Start()
    ensures Reachable(Init())
  {
    assert RunFrom(Init(), []) == [Init()];
  }

  lemma {:induction false} Reached(s: State, step: Step) returns (t: State)
    requires Reachable(s) && Enabled(s, step)
    ensures t == Apply(s, step) && Reachable(t)
  {
    hide Apply, Enabled;
    t := Apply(s, step);
    var steps :| RunFrom(Init(), steps) == [s];
    assert (steps + [step])[..|steps|] == steps;
    assert RunFrom(Init(), steps + [step]) == [t];
  }

  /** Where the token has been written, the worker can go on to the program. */
  lemma {:induction false} WorkerGoesOn(s: State) returns (t: State)
    requires Reachable(s) && s.worker.RecordingParent? && s.bytes > 0
    ensures Reachable(t) && t.worker.Program? && t.sup == s.sup
  {
    hide Reachable, RunFrom;
    t := Reached(s, Work(RecordsParent));
    t := Reached(t, Work(RequestsDeathSignal(true)));
    t := Reached(t, Work(ChecksParent));
    t := Reached(t, Work(ClosesOwnWrite));
    t := Reached(t, Work(ReadsToken));
    t := Reached(t, Work(ClosesOwnRead));
    t := Reached(t, Work(Starts));
  }

  lemma {:induction false} TokenWritten() returns (s: State)
    ensures Reachable(s) && s.worker.RecordingParent? && s.bytes > 0 && s.sup == ClosingWrite(false) && !s.deathSignal
  {
    hide Reachable, RunFrom;
    Start();
    s := Reached(Init(), Sup(ClosesRead));
    s := Reached(s, Sup(Attaches(true)));
    s := Reached(s, Sup(Writes(true)));
  }

  /** The other case does arise: a supervisor that dies between the release and that moment leaves the program alone. */
  lemma {:induction false} UnsupervisedProgram() returns (s: State)
    ensures Reachable(s) && s.worker.Program? && !SupAlive(s)
  {
    hide Reachable, RunFrom;
    s := TokenWritten();
    s := Reached(s, Sup(Dies));
    s := WorkerGoesOn(s);
  }

  // ---------- nobody waits forever ----------

  /** Steps the two processes take themselves; dying, failing waits and failing reads are left to the environment. */
  predicate Own(step: Step) {
    match step
    case Sup(a) => a != Dies && a != WaitFails
    case Work(a) => a != ReadFails && !a.IsKilled? && !a.SetupFails?
  }

  predicate Finished(s: State) {
    !SupAlive(s) && s.worker.Ended?
  }

  function SupRank(p: Supervisor): nat {
    if p.ClosingRead? then 7
    else if p.Attaching? then 6
    else if p.Rejecting? || p.Releasing? then 5
    else if p.Revoking? then 4
    else if p.ClosingWrite? then 3
    else if p.Waiting? then 2
    else 0
  }

  function WorkerRank(p: Worker): nat {
    if p.RecordingParent? then 8
    else if p.RequestingDeathSignal? then 7
    else if p.CheckingParent? then 6
    else if p.ClosingOwnWrite? then 5
    else if p.Reading? then 4
    else if p.ClosingOwnRead? then 3
    else if p.Released? then 2
    else if p.Program? then 1
    else 0
  }

  function Rank(s: State): nat {
    SupRank(s.sup) + WorkerRank(s.worker)
  }

  lemma {:induction false} SupRankFalls(s: State, step: SupStep)
    requires SupEnabled(s, step)
    ensures SupRank(SupApply(s, step).sup) < SupRank(s.sup)
    ensures WorkerRank(SupApply(s, step).worker) <= WorkerRank(s.worker)
  {
    var t := SupApply(s, step);
    assert t.worker == s.worker || t.worker.Ended?;
    match step {
      case ClosesRead =>
      case Attaches(_) =>
      case Rejects =>
      case Writes(_) =>
      case Revokes =>
      case ClosesWrite =>
      case Returns =>
      case WaitFails =>
      case Dies =>
    }
  }

  lemma {:induction false} WorkerRankFalls(s: State, step: WorkerStep)
    requires WorkerEnabled(s, step)
    ensures WorkerApply(s, step).sup == s.sup && WorkerRank(WorkerApply(s, step).worker) < WorkerRank(s.worker)
  {
    match step {
      case RecordsParent =>
      case RequestsDeathSignal(_) =>
      case ChecksParent =>
      case ClosesOwnWrite =>
      case ReadsToken =>
      case ReadsEnd =>
      case ReadFails =>
      case ClosesOwnRead =>
      case SetupFails(_) =>
      case Starts =>
      case Ends(_) =>
      case IsKilled(_) =>
    }
  }

  /** Every step brings the protocol closer to its end. */
  lemma {:induction false} RankFalls(s: State, step: Step)
    requires Enabled(s, step)
    ensures Rank(Apply(s, step)) < Rank(s)
  {
    hide SupApply, WorkerApply, SupEnabled, WorkerEnabled, SupRank, WorkerRank;
    match step {
      case Sup(a) => SupRankFalls(s, a);
      case Work(a) => WorkerRankFalls(s, a);
    }
  }

  /** Until both are done, one of the two can move without help: a reader always gets a token or the end of the pipe. */
  lemma {:induction false} NoDeadlock(s: State)
    requires Reachable(s) && !Finished(s)
    ensures exists step :: Own(step) && Enabled(s, step)
  {
    var steps :| RunFrom(Init(), steps) == [s];
    InvHolds(steps, s);
    var own := OwnStep(s);
    assert Own(own) && Enabled(s, own);
  }

  /** A step some process can take: the supervisor's own, or the worker's where the supervisor waits or is gone. */
  function OwnStep(s: State): Step {
    match s.sup
    case ClosingRead => Sup(ClosesRead)
    case Attaching => Sup(Attaches(true))
    case Rejecting => Sup(Rejects)
    case Releasing => Sup(Writes(false))
    case Revoking => Sup(Revokes)
    case ClosingWrite(_) => Sup(ClosesWrite)
    case _ =>
      match s.worker
      case RecordingParent => Work(RecordsParent)
      case RequestingDeathSignal => Work(RequestsDeathSignal(true))
      case CheckingParent => Work(ChecksParent)
      case ClosingOwnWrite => Work(ClosesOwnWrite)
      case Reading => if s.bytes > 0 then Work(ReadsToken) else Work(ReadsEnd)
      case ClosingOwnRead(_) => Work(ClosesOwnRead)
      case Released => Work(Starts)
      case Program => Work(Ends(0))
      case Ended(_) => Sup(Returns)
  }

  /** No run is longer than the rank of its start, so every maximal run ends with both processes done. */
  lemma {:induction false} RunsAreBounded(steps: seq<Step>, s: State)
    requires RunFrom(Init(), steps) == [s]
    ensures |steps| + Rank(s) <= Rank(Init())
  {
    if steps != [] {
      var last := |steps| - 1;
      var r := RunFrom(Init(), steps[..last]);
      RunsAreBounded(steps[..last], r[0]);
      RankFalls(r[0], steps[last]);
    }
  }
}
