/**
  Job control as a state machine: every interleaving of child events, signal delivery, launches, reaping,
  notification, `fg` and `bg`. The kernel is the environment; the shell's own steps use the operations of `JobTable`.
 */
module JobRuns {
  import opened Syntax
  import opened JobTable

  /** A child as the kernel sees it: its group, whether it lives, and the one status waiting to be collected. */
  datatype Child = Child(pgid: int, alive: bool, pending: Option<WaitStatus>)

  /** What the shell did to its records, in order. */
  datatype Event = Launched(pids: seq<int>) | Waited(pid: int, status: WaitStatus) | Woke(group: set<int>)

  datatype Mode = Ready | Draining | Foreground(id: int)

  datatype World = World(
    jobs: seq<Job>, nextId: int,
    flag: bool,                     // set by the SIGCHLD handler, cleared by the reaper
    signalled: bool,                // SIGCHLD raised and not yet handled
    children: map<int, Child>,
    ends: map<int, WaitStatus>,     // how each child that ended did end
    log: seq<Event>,
    mode: Mode,
    owner: int, tty: Modes,         // the terminal's foreground group and modes
    saved: map<int, Modes>,         // the modes when a job last stopped in the foreground
    announced: set<int>,            // ids reported as done at the prompt
    finished: set<int>)             // ids of jobs that ended in the foreground

  datatype Step =
    | Post(pid: int, status: WaitStatus)
    | Deliver
    | Launch(pids: seq<int>, command: string)
    | LaunchFails(pids: seq<int>)
    | StartReap
    | ReapOne(pid: int)
    | EndReap
    | Notify
    | StartForeground(id: int, killed: bool)
    | WaitOne(pid: int)
    | Finish
    | ResumeBackground(id: int, killed: bool)
    | ChangeModes(m: Modes)

  const SHELL_GROUP := 1
  const SHELL_MODES: Modes := 0

  function Init(): World {
    World([], 1, false, false, map[], map[], [], Ready, SHELL_GROUP, SHELL_MODES, map[], {}, {})
  }

  predicate HasJob(jobs: seq<Job>, id: int) {
    IndexOf(jobs, id) < |jobs|
  }

  /** Jobs are resolved to live ones before `fg` and `bg` act. */
  predicate LiveJob(jobs: seq<Job>, id: int) {
    HasJob(jobs, id) && jobs[IndexOf(jobs, id)].state != Done
  }

  predicate Collectable(w: World, pid: int) {
    pid in w.children && w.children[pid].pending.Some?
  }

  /** `fork` never returns a pid that is recorded in the table, is a child, or names the group of a child. */
  predicate Fresh(w: World, pid: int) {
    && pid != SHELL_GROUP
    && (forall job | job in w.jobs :: !Records(job, pid))
    && pid !in w.children
    && forall k | k in w.children :: w.children[k].pgid != pid
  }

  predicate FreshPids(w: World, pids: seq<int>) {
    && pids != []
    && (forall p | p in pids :: Fresh(w, p))
    && forall i, j | 0 <= i < j < |pids| :: pids[i] != pids[j]
  }

  predicate GroupHasChild(w: World, pgid: int) {
    exists k | k in w.children :: w.children[k].pgid == pgid
  }

  predicate Enabled(w: World, step: Step) {
    match step
    case Post(pid, status) => pid in w.children && w.children[pid].alive
    case Deliver => w.signalled
    case Launch(pids, _) => w.mode == Ready && FreshPids(w, pids)
    case LaunchFails(pids) => w.mode == Ready && FreshPids(w, pids)
    case StartReap => w.mode == Ready && w.flag
    case ReapOne(pid) => w.mode == Draining && Collectable(w, pid)
    case EndReap => w.mode == Draining && forall k | k in w.children :: !Collectable(w, k)
    case Notify => w.mode == Ready
    case StartForeground(id, _) => w.mode == Ready && LiveJob(w.jobs, id)
    case WaitOne(pid) =>
      && w.mode.Foreground? && HasJob(w.jobs, w.mode.id) && ForegroundJob(w).state == Running
      && Collectable(w, pid) && w.children[pid].pgid == ForegroundJob(w).pgid
    case Finish =>
      && w.mode.Foreground? && HasJob(w.jobs, w.mode.id)
      && (ForegroundJob(w).state != Running || !GroupHasChild(w, ForegroundJob(w).pgid))
    case ResumeBackground(id, _) => w.mode == Ready && LiveJob(w.jobs, id)
    case ChangeModes(_) => w.mode.Foreground?
  }

  function ForegroundJob(w: World): Job
    requires w.mode.Foreground? && HasJob(w.jobs, w.mode.id)
  {
    w.jobs[IndexOf(w.jobs, w.mode.id)]
  }

  /** Collecting a child's status; a child that has ended is gone after it. */
  function Collected(children: map<int, Child>, pid: int): map<int, Child>
    requires pid in children
  {
    if children[pid].alive then children[pid := children[pid].(pending := None)] else children - {pid}
  }

  function Reaped(w: World, pid: int): World
    requires Collectable(w, pid)
  {
    var status := w.children[pid].pending.value;
    w.(children := Collected(w.children, pid),
       jobs := Updated(w.jobs, pid, status),
       log := w.log + [Waited(pid, status)])
  }

  function Forked(w: World, pids: seq<int>): map<int, Child>
    requires pids != []
  {
    w.children + map p | p in pids :: Child(pids[0], true, None)
  }

  function Pids(job: Job): set<int> {
    set p | p in job.processes :: p.pid
  }

  /** Marks a stopped job as continued. */
  function Continue(w: World, i: nat): World
    requires i < |w.jobs|
  {
    w.(jobs := w.jobs[i := Resumed(w.jobs[i])], log := w.log + [Woke(Pids(w.jobs[i]))])
  }

  function Reclaimed(w: World): World {
    w.(owner := SHELL_GROUP, tty := SHELL_MODES)
  }

  function Apply(w: World, step: Step): World
    requires Enabled(w, step)
  {
    match step
    case Post(pid, status) =>
      w.(children := w.children[pid := w.children[pid].(alive := !Terminal(status), pending := Some(status))],
         ends := if Terminal(status) then w.ends[pid := status] else w.ends,
         signalled := true)
    case Deliver => w.(signalled := false, flag := true)
    case Launch(pids, command) =>
      w.(children := Forked(w, pids),
         jobs := w.jobs + [NewJob(w.nextId, pids[0], pids, pids[|pids| - 1], command)],
         nextId := w.nextId + 1,
         log := w.log + [Launched(pids)])
    case LaunchFails(pids) => w.(children := Forked(w, pids))
    case StartReap => w.(flag := false, mode := Draining)
    case ReapOne(pid) => Reaped(w, pid)
    case EndReap => w.(mode := Ready)
    case Notify =>
      w.(jobs := Notified(w.jobs), announced := w.announced + set id | id in AnnouncedIds(w.jobs))
    case StartForeground(id, killed) =>
      var i := IndexOf(w.jobs, id);
      var job := w.jobs[i];
      var tty := if job.modes.Some? then job.modes.value else w.tty;
      var given := w.(owner := job.pgid, tty := tty, mode := Foreground(id));
      if job.state != Stopped then given
      else if killed then Continue(given, i)
      else Reclaimed(Continue(given, i)).(mode := Ready)
    case WaitOne(pid) => Reaped(w, pid)
    case Finish =>
      var i := IndexOf(w.jobs, w.mode.id);
      var job := w.jobs[i];
      Reclaimed(w).(
        mode := Ready,
        jobs := Concluded(w.jobs, i, Some(w.tty)),
        saved := if job.state == Stopped then w.saved[job.id := w.tty] else w.saved,
        finished := if job.state == Done then w.finished + {job.id} else w.finished)
    case ResumeBackground(id, killed) =>
      var i := IndexOf(w.jobs, id);
      if w.jobs[i].state == Stopped && killed then Continue(w, i) else w
    case ChangeModes(m) => w.(tty := m)
  }

  /** The world a run from `w` ends in, if every step of it was enabled. */
  function RunFrom(w: World, steps: seq<Step>): Option<World> {
    if steps == [] then Some(w)
    else
      match RunFrom(w, steps[..|steps| - 1])
      case None => None
      case Some(v) =>
        var step := steps[|steps| - 1];
        if Enabled(v, step) then Some(Apply(v, step)) else None
  }

  /** The worlds some run of the shell reaches. */
  ghost predicate Reachable(w: World) {
    exists steps :: RunFrom(Init(), steps) == Some(w)
  }
}
