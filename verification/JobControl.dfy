/** The job control object: the table, the SIGCHLD flag and the terminal, updated in place. */
module JobControl {
  import opened Syntax
  import opened JobTable

  /** One return of a `waitpid` call that does not end its loop. */
  datatype WaitResult = Reported(pid: int, status: WaitStatus) | Interrupted

  /** What the notification writes for a job. */
  datatype Notice = Notice(id: int, state: State)

  function Notices(jobs: seq<Job>): seq<Notice> {
    if jobs == [] then []
    else
      var job := jobs[|jobs| - 1];
      Notices(jobs[..|jobs| - 1]) +
      if job.stateChanged && job.state != Running then [Notice(job.id, job.state)] else []
  }

  /** One line of the listing of jobs. */
  datatype Line = Line(id: int, current: bool, state: State, command: string)

  function Listing(jobs: seq<Job>, current: int): seq<Line> {
    if jobs == [] then []
    else
      var job := jobs[|jobs| - 1];
      Listing(jobs[..|jobs| - 1], current) +
      if job.state == Done then [] else [Line(job.id, job.id == current, job.state, job.command)]
  }

  function CurrentId(jobs: seq<Job>): int {
    if Current(jobs) < 0 then -1 else jobs[Current(jobs)].id
  }

  /** The table after the collected statuses have been recorded in turn. */
  function Recorded(jobs: seq<Job>, events: seq<WaitResult>): seq<Job> {
    if events == [] then jobs
    else
      var before := Recorded(jobs, events[..|events| - 1]);
      match events[|events| - 1]
      case Interrupted => before
      case Reported(pid, status) => Updated(before, pid, status)
  }

  predicate RunningJob(jobs: seq<Job>, id: int) {
    IndexOf(jobs, id) < |jobs| && jobs[IndexOf(jobs, id)].state == Running
  }

  /** The position of the job a spec means: the current one when it is empty, else the one with that id. */
  function Resolved(jobs: seq<Job>, spec: Option<int>): nat {
    match spec
    case None => if Current(jobs) < 0 then |jobs| else Current(jobs)
    case Some(id) => if id < 0 then |jobs| else IndexOf(jobs, id)
  }

  /** How many of the statuses the foreground wait takes: it stops once the job no longer runs. */
  function Taken(jobs: seq<Job>, id: int, events: seq<WaitResult>): (n: nat)
    ensures n <= |events|
    ensures n < |events| ==> !RunningJob(Recorded(jobs, events[..n]), id)
    ensures forall k | 0 <= k < n :: RunningJob(Recorded(jobs, events[..k]), id)
    decreases |events|
  {
    if events == [] then 0
    else
      var last := |events| - 1;
      assert forall k | 0 <= k <= last :: events[..last][..k] == events[..k];
      var n := Taken(jobs, id, events[..last]);
      if n < last then n
      else if RunningJob(Recorded(jobs, events[..last]), id) then |events| else last
  }

  /** The table and status a foreground wait ends with; `continued` is whether SIGCONT could be sent. */
  function ForegroundOutcome(
    jobs: seq<Job>, id: int, continueJob: bool, continued: bool,
    events: seq<WaitResult>, tty: Option<Modes>): (seq<Job>, int)
  {
    var i := IndexOf(jobs, id);
    if i == |jobs| then (jobs, 1)
    else
      var started := if continueJob then jobs[i := Resumed(jobs[i])] else jobs;
      if continueJob && !continued then (started, 1)
      else
        var waited := Recorded(started, events[..Taken(started, id, events)]);
        var k := IndexOf(waited, id);
        if k == |waited| then (waited, 1) else (Concluded(waited, k, tty), FinishStatus(waited[k]))
  }

  class JobControl {
    var jobs: seq<Job>
    var nextJobId: int
    var sigchldPending: bool
    const interactive: bool
    const shellPgid: int
    const shellModes: Modes
    var owner: int
    var tty: Modes

    constructor (interactive: bool, shellPgid: int, shellModes: Modes)
      ensures jobs == [] && nextJobId == 1 && !sigchldPending
      ensures this.interactive == interactive && this.shellPgid == shellPgid && this.shellModes == shellModes
      ensures owner == shellPgid && tty == shellModes
    {
      jobs, nextJobId, sigchldPending := [], 1, false;
      this.interactive, this.shellPgid, this.shellModes := interactive, shellPgid, shellModes;
      owner, tty := shellPgid, shellModes;
    }

    /** The asynchronous handler. */
    method OnSigchld()
      modifies this`sigchldPending
      ensures sigchldPending
    {
      sigchldPending := true;
    }

    method AddJob(pgid: int, pids: seq<int>, lastPid: int, command: string) returns (id: int)
      modifies this`jobs, this`nextJobId
      ensures id == old(nextJobId) && nextJobId == id + 1
      ensures jobs == old(jobs) + [NewJob(id, pgid, pids, lastPid, command)]
      ensures var job := jobs[|jobs| - 1];
              && job.id == id && job.pgid == pgid && job.lastPid == lastPid && job.command == command
              && job.state == Running && job.lastStatus == 0 && !job.stateChanged && job.modes == None
              && |job.processes| == |pids|
              && forall i | 0 <= i < |pids| :: job.processes[i].pid == pids[i] && job.processes[i].state == Running
    {
      id := nextJobId;
      nextJobId := nextJobId + 1;
      var records: seq<ProcessRecord> := [];
      for i := 0 to |pids|
        invariant records == NewRecords(pids[..i])
      {
        records := records + [ProcessRecord(pids[i], Running, Exited(0))];
      }
      assert pids[..|pids|] == pids;
      jobs := jobs + [Job(id, pgid, records, lastPid, command, Running, 0, false, None)];
    }

    /** The position of a job, or the number of jobs. */
    method FindJob(id: int) returns (i: nat)
      ensures i == IndexOf(jobs, id)
    {
      i := 0;
      while i < |jobs| && jobs[i].id != id
        invariant i <= |jobs|
        invariant forall j | 0 <= j < i :: jobs[j].id != id
      {
        i := i + 1;
      }
    }

    /** An empty spec means the current job, a number that job; the result is a position or the number of jobs. */
    method ResolveJob(spec: Option<int>) returns (i: nat)
      ensures i == Resolved(jobs, spec)
      ensures i <= |jobs|
      ensures spec == None ==>
                && (i < |jobs| ==> jobs[i].state != Done)
                && forall j | (if i < |jobs| then i + 1 else 0) <= j < |jobs| :: jobs[j].state == Done
      ensures spec.Some? ==>
                && (i < |jobs| ==> jobs[i].id == spec.value && spec.value >= 0)
                && (spec.value >= 0 ==> forall j | 0 <= j < i :: jobs[j].id != spec.value)
    {
      if spec.Some? {
        if spec.value < 0 {
          return |jobs|;
        }
        i := FindJob(spec.value);
        return;
      }
      var k := |jobs|;
      while k > 0
        invariant 0 <= k <= |jobs|
        invariant forall j | k <= j < |jobs| :: jobs[j].state == Done
      {
        k := k - 1;
        if jobs[k].state != Done {
          return k;
        }
      }
      return |jobs|;
    }

    static method RecomputeState(job: Job) returns (r: Job)
      ensures r == Recomputed(job)
    {
      var anyRunning, anyStopped, allDone := false, false, true;
      var ps := job.processes;
      for i := 0 to |ps|
        invariant anyRunning == exists j :: 0 <= j < i && ps[j].state == Running
        invariant anyStopped == exists j :: 0 <= j < i && ps[j].state == Stopped
        invariant allDone == forall j | 0 <= j < i :: ps[j].state == Done
      {
        if ps[i].state == Running {
          anyRunning, allDone := true, false;
        } else if ps[i].state == Stopped {
          anyStopped, allDone := true, false;
        }
      }
      assert allDone == forall p | p in ps :: p.state == Done;
      assert anyRunning == exists p | p in ps :: p.state == Running;
      r := job;
      if allDone {
        r := r.(state := Done);
      } else if anyRunning {
        r := r.(state := Running);
      } else if anyStopped {
        r := r.(state := Stopped);
      }
      if r.state != job.state {
        r := r.(stateChanged := true);
      }
    }

    method UpdateProcess(pid: int, status: WaitStatus)
      modifies this`jobs
      ensures jobs == Updated(old(jobs), pid, status)
    {
      for i := 0 to |jobs|
        invariant jobs == old(jobs)
        invariant forall j | 0 <= j < i :: !Records(jobs[j], pid)
      {
        var job := jobs[i];
        var a := 0;
        while a < |job.processes| && job.processes[a].pid != pid
          invariant a <= |job.processes|
          invariant forall b | 0 <= b < a :: job.processes[b].pid != pid
        {
          a := a + 1;
        }
        if a == |job.processes| {
          continue;
        }
        assert Records(job, pid) by { assert job.processes[a] in job.processes; }
        var state :=
          if status.Exited? || status.Signaled? then Done else if status.StoppedBy? then Stopped else Running;
        job := job.(processes := job.processes[a := ProcessRecord(pid, state, status)]);
        if pid == job.lastPid && !status.Continued? {
          job := job.(lastStatus := Decode(status));
        }
        job := RecomputeState(job);
        jobs := jobs[i := job];
        assert JobOf(old(jobs), pid) == i && RecordOf(old(jobs)[i].processes, pid) == a;
        return;
      }
      assert JobOf(jobs, pid) == |jobs|;
    }

    method GiveTerminalTo(pgid: int, modes: Option<Modes>)
      modifies this`owner, this`tty
      ensures owner == if interactive then pgid else old(owner)
      ensures tty == if interactive && modes.Some? then modes.value else old(tty)
    {
      if !interactive {
        return;
      }
      owner := pgid;
      if modes.Some? {
        tty := modes.value;
      }
    }

    method ReclaimTerminal()
      modifies this`owner, this`tty
      ensures owner == if interactive then shellPgid else old(owner)
      ensures tty == if interactive then shellModes else old(tty)
    {
      if !interactive {
        return;
      }
      owner, tty := shellPgid, shellModes;
    }

    /** Marks a stopped job as running again, record by record. */
    static method MarkContinued(job: Job) returns (r: Job)
      ensures r == Resumed(job)
    {
      var ps := job.processes;
      for i := 0 to |ps|
        invariant |ps| == |job.processes|
        invariant forall j | 0 <= j < |ps| :: ps[j] == if j < i then Woken(job.processes[j]) else job.processes[j]
      {
        if ps[i].state == Stopped {
          ps := ps[i := ps[i].(state := Running)];
        }
      }
      assert ps == WokenAll(job.processes);
      r := job.(processes := ps, state := Running, stateChanged := false);
    }

    /** Collects the job's events while it runs; `events` are the returns of `waitpid` before it has no child left. */
    method WaitWhileRunning(id: int, events: seq<WaitResult>)
      modifies this`jobs
      ensures jobs == Recorded(old(jobs), events[..Taken(old(jobs), id, events)])
    {
      var n := 0;
      var i := FindJob(id);
      assert events[..0] == [];
      while i < |jobs| && jobs[i].state == Running && n < |events|
        invariant 0 <= n <= |events| && i == IndexOf(jobs, id)
        invariant jobs == Recorded(old(jobs), events[..n])
        invariant forall k | 0 <= k < n :: RunningJob(Recorded(old(jobs), events[..k]), id)
        decreases |events| - n
      {
        assert events[..n + 1][..n] == events[..n];
        if events[n].Reported? {
          UpdateProcess(events[n].pid, events[n].status);
          i := FindJob(id);
        }
        n := n + 1;
      }
      TakenIs(old(jobs), id, events, n);
    }

    /** Takes the terminal back and reports the job; `left` is the state of the modes the job leaves behind. */
    method Conclude(id: int, left: Modes) returns (status: int)
      modifies this`jobs, this`owner, this`tty
      ensures owner == if interactive then shellPgid else old(owner)
      ensures tty == if interactive then shellModes else old(tty)
      ensures var k := IndexOf(old(jobs), id);
              if k == |old(jobs)| then status == 1 && jobs == old(jobs)
              else
                && status == FinishStatus(old(jobs)[k])
                && jobs == Concluded(old(jobs), k, if interactive then Some(left) else None)
    {
      var i := FindJob(id);
      if i < |jobs| && interactive && jobs[i].state == Stopped {
        jobs := jobs[i := jobs[i].(modes := Some(left))];
        IndexOfIs(jobs, id, i);
      }
      ReclaimTerminal();
      i := FindJob(id);
      if i == |jobs| {
        return 1;
      }
      status := if jobs[i].state == Stopped && jobs[i].lastStatus == 0 then 128 + SIGTSTP else jobs[i].lastStatus;
      if jobs[i].state == Stopped {
        jobs := jobs[i := jobs[i].(stateChanged := false)];
        return;
      }
      if jobs[i].state == Done {
        EraseJob(id);
      }
    }

    /** Waits for a job in the foreground, continued first if asked; `continued` is whether SIGCONT could be sent. */
    method WaitForeground(id: int, continueJob: bool, continued: bool, events: seq<WaitResult>, left: Modes)
      returns (status: int)
      modifies this`jobs, this`owner, this`tty
      ensures interactive ==> owner == (if IndexOf(old(jobs), id) < |old(jobs)| then shellPgid else old(owner))
      ensures interactive ==> tty == (if IndexOf(old(jobs), id) < |old(jobs)| then shellModes else old(tty))
      ensures (jobs, status) ==
              ForegroundOutcome(old(jobs), id, continueJob, continued, events, if interactive then Some(left) else None)
    {
      var i := FindJob(id);
      if i == |jobs| {
        return 1;
      }
      GiveTerminalTo(jobs[i].pgid, jobs[i].modes);
      if continueJob {
        var job := MarkContinued(jobs[i]);
        jobs := jobs[i := job];
        if !continued {
          ReclaimTerminal();
          return 1;
        }
      }
      WaitWhileRunning(id, events);
      status := Conclude(id, left);
    }

    /** `fg`: resolves a live job after a quiet reap and waits for it. */
    method BringToForeground(
      spec: Option<int>, reaped: seq<WaitResult>, continued: bool, events: seq<WaitResult>, left: Modes)
      returns (status: int)
      modifies this
      ensures nextJobId == old(nextJobId)
      ensures var table := if old(sigchldPending) then Recorded(old(jobs), reaped) else old(jobs);
              var i := Resolved(table, spec);
              if i == |table| || table[i].state == Done
              then status == 1 && jobs == table && owner == old(owner) && tty == old(tty)
              else
                && (interactive ==> owner == shellPgid && tty == shellModes)
                && (jobs, status) == ForegroundOutcome(
                     table, table[i].id, table[i].state == Stopped, continued, events,
                     if interactive then Some(left) else None)
    {
      var notices := ReapBackground(false, reaped);
      var i := ResolveJob(spec);
      if i == |jobs| || jobs[i].state == Done {
        return 1;
      }
      assert IndexOf(jobs, jobs[i].id) < |jobs|;
      status := WaitForeground(jobs[i].id, jobs[i].state == Stopped, continued, events, left);
    }

    /** `bg`: resolves a live job after a quiet reap and, if it is stopped, continues it. */
    method ContinueBackground(spec: Option<int>, reaped: seq<WaitResult>, continued: bool) returns (status: int)
      modifies this`jobs, this`sigchldPending
      ensures var table := if old(sigchldPending) then Recorded(old(jobs), reaped) else old(jobs);
              var i := Resolved(table, spec);
              if i == |table| || table[i].state == Done then status == 1 && jobs == table
              else if table[i].state == Stopped && !continued then status == 1 && jobs == table
              else status == 0 && jobs == if table[i].state == Stopped then table[i := Resumed(table[i])] else table
    {
      var notices := ReapBackground(false, reaped);
      var i := ResolveJob(spec);
      if i == |jobs| || jobs[i].state == Done {
        return 1;
      }
      if jobs[i].state == Stopped {
        if !continued {
          return 1;
        }
        var job := MarkContinued(jobs[i]);
        jobs := jobs[i := job];
      }
      return 0;
    }

    /** Reports changed jobs and drops the done ones. */
    method NotifyAndCleanupDoneJobs() returns (notices: seq<Notice>)
      modifies this`jobs
      ensures jobs == Notified(old(jobs)) && notices == Notices(old(jobs))
    {
      hide Notices, Notified;
      notices := [];
      var kept: seq<Job> := [];
      NothingSeen(jobs);
      for i := 0 to |jobs|
        invariant jobs == old(jobs)
        invariant notices == Notices(jobs[..i])
        invariant kept + Notified(jobs[i..]) == Notified(jobs)
      {
        SeenNext(jobs, i, kept);
        var job := jobs[i];
        if !job.stateChanged {
          kept := kept + [job];
          continue;
        }
        if job.state == Done {
          notices := notices + [Notice(job.id, Done)];
        } else if job.state == Stopped {
          notices := notices + [Notice(job.id, Stopped)];
          kept := kept + [job.(stateChanged := false)];
        } else {
          kept := kept + [job.(stateChanged := false)];
        }
      }
      assert jobs[..|jobs|] == jobs;
      NothingLeft(jobs);
      assert kept + [] == kept;
      jobs := kept;
    }

    /** Clears the flag, then collects every status; `events` are the returns of `waitpid` before it has none. */
    method ReapBackground(notify: bool, events: seq<WaitResult>) returns (notices: seq<Notice>)
      modifies this`jobs, this`sigchldPending
      ensures !sigchldPending
      ensures var table := if old(sigchldPending) then Recorded(old(jobs), events) else old(jobs);
              if notify then jobs == Notified(table) && notices == Notices(table) else jobs == table && notices == []
    {
      notices := [];
      if sigchldPending {
        sigchldPending := false;
        var n := 0;
        assert events[..0] == [];
        while n < |events|
          invariant 0 <= n <= |events| && !sigchldPending && jobs == Recorded(old(jobs), events[..n])
        {
          assert events[..n + 1][..n] == events[..n];
          if events[n].Reported? {
            UpdateProcess(events[n].pid, events[n].status);
          }
          n := n + 1;
        }
        assert events[..|events|] == events;
      }
      if notify {
        notices := NotifyAndCleanupDoneJobs();
      }
    }

    /** Lists the jobs that are not done and marks the current one. */
    method RenderJobs() returns (lines: seq<Line>)
      ensures lines == Listing(jobs, CurrentId(jobs))
    {
      var currentId := -1;
      var k := |jobs|;
      while k > 0
        invariant 0 <= k <= |jobs| && currentId == -1
        invariant forall j | k <= j < |jobs| :: jobs[j].state == Done
      {
        k := k - 1;
        if jobs[k].state != Done {
          currentId := jobs[k].id;
          break;
        }
      }
      lines := [];
      for i := 0 to |jobs|
        invariant lines == Listing(jobs[..i], CurrentId(jobs))
      {
        assert jobs[..i + 1][..i] == jobs[..i];
        if jobs[i].state == Done {
          continue;
        }
        lines := lines + [Line(jobs[i].id, jobs[i].id == currentId, jobs[i].state, jobs[i].command)];
      }
      assert jobs[..|jobs|] == jobs;
    }

    method EraseJob(id: int)
      modifies this`jobs
      ensures jobs == Removed(old(jobs), id)
    {
      var kept: seq<Job> := [];
      for i := 0 to |jobs|
        invariant jobs == old(jobs)
        invariant kept + Removed(jobs[i..], id) == Removed(jobs, id)
      {
        assert jobs[i..][1..] == jobs[i + 1..];
        if jobs[i].id != id {
          kept := kept + [jobs[i]];
        }
      }
      jobs := kept;
    }
  }

  lemma {:induction false} NothingSeen(jobs: seq<Job>)
    ensures Notices(jobs[..0]) == [] && [] + Notified(jobs[0..]) == Notified(jobs)
  {
    assert jobs[0..] == jobs;
  }

  lemma {:induction false} NothingLeft(jobs: seq<Job>)
    ensures Notified(jobs[|jobs|..]) == []
  {
  }

  /** What one more job adds to the notices and to the jobs kept. */
  lemma {:induction false} SeenNext(jobs: seq<Job>, i: nat, kept: seq<Job>)
    requires i < |jobs|
    ensures var job := jobs[i];
            var news := if job.stateChanged && job.state != Running then [Notice(job.id, job.state)] else [];
            && Notices(jobs[..i + 1]) == Notices(jobs[..i]) + news
            && kept + Notified(jobs[i..]) ==
               (if Announced(job) then kept else kept + [job.(stateChanged := false)]) + Notified(jobs[i + 1..])
  {
    assert jobs[..i + 1][..i] == jobs[..i] && jobs[i..][1..] == jobs[i + 1..];
  }

  lemma {:induction false} TakenIs(jobs: seq<Job>, id: int, events: seq<WaitResult>, n: nat)
    requires n <= |events| && forall k | 0 <= k < n :: RunningJob(Recorded(jobs, events[..k]), id)
    requires n < |events| ==> !RunningJob(Recorded(jobs, events[..n]), id)
    ensures Taken(jobs, id, events) == n
  {
  }
}
