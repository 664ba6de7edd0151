/** The job table as a value: process records, jobs, and what each event does to them. */
module JobTable {
  import opened Syntax

  type Modes = int

  /** What `waitpid` reports about a child. */
  datatype WaitStatus = Exited(code: nat) | Signaled(signal: nat) | StoppedBy(signal: nat) | Continued

  datatype State = Running | Stopped | Done

  datatype ProcessRecord = ProcessRecord(pid: int, state: State, waitStatus: WaitStatus)

  datatype Job = Job(
    id: int, pgid: int, processes: seq<ProcessRecord>, lastPid: int, command: string,
    state: State, lastStatus: int, stateChanged: bool, modes: Option<Modes>)

  const SIGTSTP := 20

  function Decode(s: WaitStatus): int {
    match s
    case Exited(code) => code
    case Signaled(signal) => 128 + signal
    case StoppedBy(signal) => 128 + signal
    case Continued => 0
  }

  predicate Terminal(s: WaitStatus) {
    s.Exited? || s.Signaled?
  }

  function StateAfter(s: WaitStatus): State {
    match s
    case Exited(_) => Done
    case Signaled(_) => Done
    case StoppedBy(_) => Stopped
    case Continued => Running
  }

  /** The state of a job is decided by its processes. */
  function Overall(ps: seq<ProcessRecord>): State {
    if forall p | p in ps :: p.state == Done then Done
    else if exists p | p in ps :: p.state == Running then Running
    else Stopped
  }

  function Recomputed(job: Job): Job {
    var state := Overall(job.processes);
    job.(state := state, stateChanged := job.stateChanged || state != job.state)
  }

  // ---------- operations on a table ----------

  function NewRecords(pids: seq<int>): seq<ProcessRecord> {
    seq(|pids|, i requires 0 <= i < |pids| => ProcessRecord(pids[i], Running, Exited(0)))
  }

  function NewJob(id: int, pgid: int, pids: seq<int>, lastPid: int, command: string): Job {
    Job(id, pgid, NewRecords(pids), lastPid, command, Running, 0, false, None)
  }

  /** The index of the first record of `pid`, or the number of records. */
  function RecordOf(ps: seq<ProcessRecord>, pid: int): (i: nat)
    ensures i <= |ps| && (i < |ps| ==> ps[i].pid == pid)
    ensures forall j | 0 <= j < i :: ps[j].pid != pid
  {
    if ps == [] then 0 else if ps[0].pid == pid then 0 else 1 + RecordOf(ps[1..], pid)
  }

  predicate Records(job: Job, pid: int) {
    exists p | p in job.processes :: p.pid == pid
  }

  /** The effect of a wait event on the job whose record it reaches first. */
  function JobUpdated(job: Job, pid: int, s: WaitStatus): Job {
    var i := RecordOf(job.processes, pid);
    if i == |job.processes| then job
    else
      Recomputed(job.(
        processes := job.processes[i := ProcessRecord(pid, StateAfter(s), s)],
        lastStatus := if pid == job.lastPid && s != Continued then Decode(s) else job.lastStatus))
  }

  /** The index of the first job that records `pid`, or the number of jobs. */
  function JobOf(jobs: seq<Job>, pid: int): (i: nat)
    ensures i <= |jobs| && (i < |jobs| ==> Records(jobs[i], pid))
    ensures forall j | 0 <= j < i :: !Records(jobs[j], pid)
  {
    if jobs == [] then 0 else if Records(jobs[0], pid) then 0 else 1 + JobOf(jobs[1..], pid)
  }

  function Updated(jobs: seq<Job>, pid: int, s: WaitStatus): seq<Job> {
    var i := JobOf(jobs, pid);
    if i == |jobs| then jobs else jobs[i := JobUpdated(jobs[i], pid, s)]
  }

  function Woken(p: ProcessRecord): ProcessRecord {
    if p.state == Stopped then p.(state := Running) else p
  }

  function WokenAll(ps: seq<ProcessRecord>): seq<ProcessRecord> {
    seq(|ps|, i requires 0 <= i < |ps| => Woken(ps[i]))
  }

  /** Continuing a job marks its stopped processes, and the job, as running. */
  function Resumed(job: Job): Job {
    job.(processes := WokenAll(job.processes), state := Running, stateChanged := false)
  }

  /** The index of the job with this id, or the number of jobs. */
  function IndexOf(jobs: seq<Job>, id: int): (i: nat)
    ensures i <= |jobs| && (i < |jobs| ==> jobs[i].id == id)
    ensures forall j | 0 <= j < i :: jobs[j].id != id
  {
    if jobs == [] then 0 else if jobs[0].id == id then 0 else 1 + IndexOf(jobs[1..], id)
  }

  lemma {:induction false} IndexOfIs(jobs: seq<Job>, id: int, i: nat)
    requires i <= |jobs| && (i < |jobs| ==> jobs[i].id == id) && forall j | 0 <= j < i :: jobs[j].id != id
    ensures IndexOf(jobs, id) == i
  {
  }

  function Removed(jobs: seq<Job>, id: int): seq<Job> {
    if jobs == [] then []
    else if jobs[0].id == id then Removed(jobs[1..], id) else [jobs[0]] + Removed(jobs[1..], id)
  }

  /** The end of a foreground wait: a stopped job keeps the terminal's modes, a done job leaves the table. */
  function Concluded(jobs: seq<Job>, i: nat, tty: Option<Modes>): seq<Job>
    requires i < |jobs|
  {
    var job := jobs[i];
    match job.state
    case Stopped => jobs[i := job.(modes := if tty.Some? then tty else job.modes, stateChanged := false)]
    case Done => Removed(jobs, job.id)
    case Running => jobs
  }

  /** The status the foreground wait returns. */
  function FinishStatus(job: Job): int {
    if job.state == Stopped && job.lastStatus == 0 then 128 + SIGTSTP else job.lastStatus
  }

  /** A job the notification reports as done and drops. */
  predicate Announced(job: Job) {
    job.stateChanged && job.state == Done
  }

  /** What remains of the table after the notification: reported jobs are dropped, the rest marked as seen. */
  function Notified(jobs: seq<Job>): seq<Job> {
    if jobs == [] then []
    else if Announced(jobs[0]) then Notified(jobs[1..])
    else [jobs[0].(stateChanged := false)] + Notified(jobs[1..])
  }

  function AnnouncedIds(jobs: seq<Job>): seq<int> {
    if jobs == [] then []
    else if Announced(jobs[0]) then [jobs[0].id] + AnnouncedIds(jobs[1..]) else AnnouncedIds(jobs[1..])
  }

  /** The last job that is not done: the one an empty job spec means, marked `+` in listings. */
  function Current(jobs: seq<Job>): (i: int)
    ensures -1 <= i < |jobs|
    ensures i >= 0 ==> jobs[i].state != Done
    ensures forall j | i < j < |jobs| :: jobs[j].state == Done
  {
    if jobs == [] then -1
    else if jobs[|jobs| - 1].state != Done then |jobs| - 1 else Current(jobs[..|jobs| - 1])
  }
}
