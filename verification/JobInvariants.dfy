/** What every reachable job table satisfies, and that each table operation keeps it. */
module JobInvariants {
  import opened Syntax
  import opened JobTable
  import opened JobRuns

  // ---------- replaying the log ----------

  /** The record of a process from its last status alone. */
  function RecordFrom(pid: int, status: WaitStatus): ProcessRecord {
    match status
    case Exited(_) => ProcessRecord(pid, Done, status)
    case Signaled(_) => ProcessRecord(pid, Done, status)
    case StoppedBy(_) => ProcessRecord(pid, Stopped, status)
    case Continued => ProcessRecord(pid, Running, status)
  }

  /** The record of `pid` that the events up to now leave: its last status, or a later continue. */
  function Replay(log: seq<Event>, pid: int): Option<ProcessRecord> {
    if log == [] then None
    else
      var earlier := log[..|log| - 1];
      match log[|log| - 1]
      case Launched(pids) => if pid in pids then Some(ProcessRecord(pid, Running, Exited(0))) else Replay(earlier, pid)
      case Waited(p, status) =>
        if p == pid then Some(RecordFrom(pid, status)) else Replay(earlier, pid)
      case Woke(group) =>
        var r := Replay(earlier, pid);
        if pid in group && r.Some? && r.value.state == Stopped then Some(r.value.(state := Running)) else r
  }

  // ---------- the invariant of one job, and of the table ----------

  ghost predicate SoundJob(job: Job) {
    && job.processes != []
    && job.pgid == job.processes[0].pid
    && job.lastPid == job.processes[|job.processes| - 1].pid
    && (forall a, b | 0 <= a < b < |job.processes| :: job.processes[a].pid != job.processes[b].pid)
    && job.state == Overall(job.processes)
    && (job.state == Done ==> job.stateChanged)
    && (forall p | p in job.processes && p.pid == job.lastPid && p.state != Running ::
          job.lastStatus == Decode(p.waitStatus))
  }

  ghost predicate SoundTable(jobs: seq<Job>) {
    && (forall job | job in jobs :: SoundJob(job))
    && forall i, j, pid | 0 <= i < j < |jobs| && Records(jobs[i], pid) :: !Records(jobs[j], pid)
  }

  /** Ids are positive, below the next one to be given, and increase along the table. */
  ghost predicate Numbered(jobs: seq<Job>, nextId: int) {
    && (forall job | job in jobs :: 0 < job.id < nextId)
    && forall i, j | 0 <= i < j < |jobs| :: jobs[i].id < jobs[j].id
  }

  ghost predicate Replays(jobs: seq<Job>, log: seq<Event>) {
    forall job, p | job in jobs && p in job.processes :: Replay(log, p.pid) == Some(p)
  }

  // ---------- a wait event reaches exactly the record of its pid ----------

  /** A job after the event: the record is replaced, the others and the order stay. */
  lemma {:induction false} JobUpdatedSound(job: Job, pid: int, s: WaitStatus)
    requires SoundJob(job) && Records(job, pid) && !(exists p | p in job.processes :: p.pid == pid && p.state == Done)
    ensures var job' := JobUpdated(job, pid, s);
            && SoundJob(job') && job'.id == job.id && job'.pgid == job.pgid && job'.modes == job.modes
            && |job'.processes| == |job.processes|
            && (forall a | 0 <= a < |job.processes| ::
                  job'.processes[a] ==
                  if job.processes[a].pid == pid then ProcessRecord(pid, StateAfter(s), s) else job.processes[a])
  {
    var i := RecordOf(job.processes, pid);
    var job' := JobUpdated(job, pid, s);
    assert job.processes[i] in job.processes;
    assert job.state != Done;
  }

  // ---------- each table operation keeps the invariant ----------

  ghost predicate GoodTable(jobs: seq<Job>, nextId: int, log: seq<Event>) {
    SoundTable(jobs) && Numbered(jobs, nextId) && Replays(jobs, log)
  }

  /** No job has finished `pid` already. */
  ghost predicate NotDone(jobs: seq<Job>, pid: int) {
    forall job, p | job in jobs && p in job.processes && p.pid == pid :: p.state != Done
  }

  lemma {:induction false} ReplayAppends(log: seq<Event>, e: Event, pid: int)
    ensures Replay(log + [e], pid) ==
            match e
            case Launched(pids) =>
              if pid in pids then Some(ProcessRecord(pid, Running, Exited(0))) else Replay(log, pid)
            case Waited(p, status) =>
              if p == pid then Some(ProcessRecord(pid, StateAfter(status), status)) else Replay(log, pid)
            case Woke(group) =>
              if pid in group && Replay(log, pid).Some? then Some(Woken(Replay(log, pid).value)) else Replay(log, pid)
  {
    assert (log + [e])[..|log|] == log;
  }

  lemma {:induction false} UpdatedAt(jobs: seq<Job>, pid: int, s: WaitStatus) returns (i: nat)
    requires SoundTable(jobs) && NotDone(jobs, pid)
    ensures i <= |jobs| && (forall j | 0 <= j < |jobs| :: Records(jobs[j], pid) <==> j == i)
    ensures i == |jobs| ==> Updated(jobs, pid, s) == jobs
    ensures i < |jobs| ==> Updated(jobs, pid, s) == jobs[i := JobUpdated(jobs[i], pid, s)]
    ensures i < |jobs| ==> SoundJob(JobUpdated(jobs[i], pid, s))
  {
    i := JobOf(jobs, pid);
    if i < |jobs| {
      JobUpdatedSound(jobs[i], pid, s);
    }
  }

  /** An event changes one record of the table, or none when the pid is unknown. */
  lemma {:induction false} UpdatedShape(jobs: seq<Job>, pid: int, s: WaitStatus) returns (i: nat)
    requires SoundTable(jobs) && NotDone(jobs, pid)
    ensures i <= |jobs| && (forall j | 0 <= j < |jobs| :: Records(jobs[j], pid) <==> j == i)
    ensures var jobs' := Updated(jobs, pid, s);
            && |jobs'| == |jobs|
            && (forall j | 0 <= j < |jobs| && j != i :: jobs'[j] == jobs[j])
            && (i < |jobs| ==>
                  && SoundJob(jobs'[i]) && jobs'[i].id == jobs[i].id && jobs'[i].pgid == jobs[i].pgid
                  && jobs'[i].modes == jobs[i].modes && |jobs'[i].processes| == |jobs[i].processes|
                  && forall a | 0 <= a < |jobs[i].processes| ::
                       jobs'[i].processes[a] ==
                       if jobs[i].processes[a].pid == pid then ProcessRecord(pid, StateAfter(s), s)
                       else jobs[i].processes[a])
  {
    hide SoundJob, Records, JobUpdated;
    i := UpdatedAt(jobs, pid, s);
    if i < |jobs| {
      assert jobs[i] in jobs;
      JobUpdatedSound(jobs[i], pid, s);
    }
  }

  lemma {:induction false} SamePids(job: Job, job': Job, pid: int)
    requires |job.processes| == |job'.processes|
    requires forall a | 0 <= a < |job.processes| :: job.processes[a].pid == job'.processes[a].pid
    ensures Records(job, pid) <==> Records(job', pid)
  {
    if a :| 0 <= a < |job.processes| && job.processes[a].pid == pid {
      assert job'.processes[a] in job'.processes;
    }
    if a :| 0 <= a < |job.processes| && job'.processes[a].pid == pid {
      assert job.processes[a] in job.processes;
    }
  }

  /** Replacing one job by another with the same id and pids keeps ids and pids apart. */
  lemma {:induction false} ReplacedSound(jobs: seq<Job>, nextId: int, i: nat, job: Job)
    requires SoundTable(jobs) && Numbered(jobs, nextId) && i < |jobs|
    requires SoundJob(job) && job.id == jobs[i].id
    requires |job.processes| == |jobs[i].processes|
    requires forall a | 0 <= a < |job.processes| :: job.processes[a].pid == jobs[i].processes[a].pid
    ensures SoundTable(jobs[i := job]) && Numbered(jobs[i := job], nextId)
  {
    hide SoundJob, Records;
    var jobs' := jobs[i := job];
    forall j, k, pid | 0 <= j < k < |jobs'| && Records(jobs'[j], pid)
      ensures !Records(jobs'[k], pid)
    {
      SamePids(job, jobs[i], pid);
    }
    forall x | x in jobs'
      ensures SoundJob(x) && 0 < x.id < nextId
    {
      var j :| 0 <= j < |jobs'| && jobs'[j] == x;
      assert jobs[j] in jobs;
    }
  }

  lemma {:induction false} UpdatedGood(jobs: seq<Job>, nextId: int, log: seq<Event>, pid: int, s: WaitStatus)
    requires GoodTable(jobs, nextId, log) && NotDone(jobs, pid)
    ensures GoodTable(Updated(jobs, pid, s), nextId, log + [Waited(pid, s)])
  {
    hide SoundJob, Updated, NotDone;
    var i := UpdatedShape(jobs, pid, s);
    var jobs', log' := Updated(jobs, pid, s), log + [Waited(pid, s)];
    if i < |jobs| {
      ReplacedSound(jobs, nextId, i, jobs'[i]);
      assert jobs' == jobs[i := jobs'[i]];
    } else {
      assert jobs' == jobs;
    }
    forall job, p | job in jobs' && p in job.processes
      ensures Replay(log', p.pid) == Some(p)
    {
      ReplayAppends(log, Waited(pid, s), p.pid);
      var j :| 0 <= j < |jobs'| && jobs'[j] == job;
      assert jobs[j] in jobs;
      if j != i {
        assert Records(jobs[j], p.pid);
      } else {
        var a :| 0 <= a < |job.processes| && job.processes[a] == p;
        assert jobs[i].processes[a] in jobs[i].processes;
      }
    }
  }

  lemma {:induction false} NewJobSound(id: int, pids: seq<int>, command: string)
    requires pids != [] && forall i, j | 0 <= i < j < |pids| :: pids[i] != pids[j]
    ensures SoundJob(NewJob(id, pids[0], pids, pids[|pids| - 1], command))
    ensures forall pid :: Records(NewJob(id, pids[0], pids, pids[|pids| - 1], command), pid) <==> pid in pids
  {
    var job := NewJob(id, pids[0], pids, pids[|pids| - 1], command);
    assert job.processes[0] in job.processes;
    forall i | 0 <= i < |pids|
      ensures Records(job, pids[i])
    {
      assert job.processes[i] in job.processes;
    }
  }

  lemma {:induction false} AddedGood(jobs: seq<Job>, nextId: int, log: seq<Event>, pids: seq<int>, command: string)
    requires GoodTable(jobs, nextId, log) && 0 < nextId
    requires pids != [] && forall i, j | 0 <= i < j < |pids| :: pids[i] != pids[j]
    requires forall job, p | job in jobs && p in pids :: !Records(job, p)
    ensures var job := NewJob(nextId, pids[0], pids, pids[|pids| - 1], command);
            GoodTable(jobs + [job], nextId + 1, log + [Launched(pids)])
  {
    hide SoundJob;
    var job := NewJob(nextId, pids[0], pids, pids[|pids| - 1], command);
    var jobs', log' := jobs + [job], log + [Launched(pids)];
    NewJobSound(nextId, pids, command);
    forall x, p | x in jobs' && p in x.processes
      ensures Replay(log', p.pid) == Some(p)
    {
      ReplayAppends(log, Launched(pids), p.pid);
      assert Records(x, p.pid);
    }
  }

  lemma {:induction false} ResumedSound(job: Job)
    requires SoundJob(job) && job.state == Stopped
    ensures SoundJob(Resumed(job))
  {
    var ps, ps' := job.processes, WokenAll(job.processes);
    assert exists p | p in ps :: p.state != Done;
    var a :| 0 <= a < |ps| && ps[a].state != Done;
    assert ps[a] in ps && ps'[a] in ps' && ps'[a].state == Running;
  }

  lemma {:induction false} ResumedGood(jobs: seq<Job>, nextId: int, log: seq<Event>, i: nat)
    requires GoodTable(jobs, nextId, log) && i < |jobs| && jobs[i].state == Stopped
    ensures GoodTable(jobs[i := Resumed(jobs[i])], nextId, log + [Woke(Pids(jobs[i]))])
  {
    hide SoundJob;
    var jobs', log' := jobs[i := Resumed(jobs[i])], log + [Woke(Pids(jobs[i]))];
    assert jobs[i] in jobs;
    ResumedSound(jobs[i]);
    ReplacedSound(jobs, nextId, i, Resumed(jobs[i]));
    forall job, p | job in jobs' && p in job.processes
      ensures Replay(log', p.pid) == Some(p)
    {
      ReplayAppends(log, Woke(Pids(jobs[i])), p.pid);
      var j :| 0 <= j < |jobs'| && jobs'[j] == job;
      assert jobs[j] in jobs;
      if j == i {
        var a :| 0 <= a < |job.processes| && job.processes[a] == p;
        assert jobs[i].processes[a] in jobs[i].processes;
      } else {
        assert Records(jobs[j], p.pid) && !Records(jobs[i], p.pid);
        assert p.pid !in Pids(jobs[i]);
      }
    }
  }

  /** Changing what is remembered about a live job, but not its processes. */
  lemma {:induction false} SeenGood(jobs: seq<Job>, nextId: int, log: seq<Event>, i: nat, job: Job)
    requires GoodTable(jobs, nextId, log) && i < |jobs| && jobs[i].state != Done
    requires job == jobs[i].(modes := job.modes, stateChanged := job.stateChanged)
    ensures GoodTable(jobs[i := job], nextId, log)
  {
    assert jobs[i] in jobs;
    ReplacedSound(jobs, nextId, i, job);
  }

  lemma {:induction false} ConsGood(job: Job, jobs: seq<Job>, nextId: int, log: seq<Event>)
    requires GoodTable(jobs, nextId, log) && SoundJob(job) && 0 < job.id < nextId
    requires forall y | y in jobs :: job.id < y.id
    requires forall y, pid | y in jobs && Records(job, pid) :: !Records(y, pid)
    requires forall p | p in job.processes :: Replay(log, p.pid) == Some(p)
    ensures GoodTable([job] + jobs, nextId, log)
  {
    hide SoundJob, Records;
  }

  /** The first job and the others, taken apart. */
  lemma {:induction false} UnconsGood(jobs: seq<Job>, nextId: int, log: seq<Event>)
    requires GoodTable(jobs, nextId, log) && jobs != []
    ensures GoodTable(jobs[1..], nextId, log)
    ensures SoundJob(jobs[0]) && 0 < jobs[0].id < nextId
    ensures forall p | p in jobs[0].processes :: Replay(log, p.pid) == Some(p)
    ensures forall y | y in jobs[1..] :: jobs[0].id < y.id && y in jobs
    ensures forall y, pid | y in jobs[1..] && Records(jobs[0], pid) :: !Records(y, pid)
  {
    hide SoundJob, Records;
    assert jobs[0] in jobs;
  }

  /** Dropping a finished job keeps the invariant and every other job. */
  lemma {:induction false} RemovedGood(jobs: seq<Job>, nextId: int, log: seq<Event>, id: int)
    requires GoodTable(jobs, nextId, log)
    ensures GoodTable(Removed(jobs, id), nextId, log)
    ensures forall job :: job in Removed(jobs, id) <==> job in jobs && job.id != id
  {
    hide SoundJob, Records;
    if jobs != [] {
      assert jobs == [jobs[0]] + jobs[1..];
      UnconsGood(jobs, nextId, log);
      RemovedGood(jobs[1..], nextId, log, id);
      if jobs[0].id != id {
        ConsGood(jobs[0], Removed(jobs[1..], id), nextId, log);
      }
    }
  }

  /** The notification reports every done job and leaves only live ones. */
  lemma {:induction false} NotifiedMembers(jobs: seq<Job>)
    requires forall job | job in jobs && job.state == Done :: job.stateChanged
    ensures forall job | job in Notified(jobs) ::
              exists was | was in jobs :: was.state != Done && job == was.(stateChanged := false)
    ensures forall was | was in jobs && was.state != Done :: was.(stateChanged := false) in Notified(jobs)
    ensures forall id :: id in AnnouncedIds(jobs) <==> exists was | was in jobs :: was.state == Done && was.id == id
  {
    if jobs != [] {
      assert jobs == [jobs[0]] + jobs[1..];
      NotifiedMembers(jobs[1..]);
    }
  }

  lemma {:induction false} NotifiedGood(jobs: seq<Job>, nextId: int, log: seq<Event>)
    requires GoodTable(jobs, nextId, log)
    ensures GoodTable(Notified(jobs), nextId, log)
  {
    if jobs != [] {
      var x, rest := jobs[0], jobs[1..];
      UnconsGood(jobs, nextId, log);
      NotifiedGood(rest, nextId, log);
      if x.state != Done {
        SeenSound(x);
        NotifiedApart(x, rest);
        ConsGood(x.(stateChanged := false), Notified(rest), nextId, log);
      }
    }
  }

  lemma {:induction false} SeenSound(job: Job)
    requires SoundJob(job) && job.state != Done
    ensures SoundJob(job.(stateChanged := false))
    ensures forall pid :: Records(job.(stateChanged := false), pid) <==> Records(job, pid)
  {
  }

  lemma {:induction false} NotifiedApart(x: Job, rest: seq<Job>)
    requires forall y | y in rest :: x.id < y.id
    requires forall y, pid | y in rest && Records(x, pid) :: !Records(y, pid)
    ensures forall y | y in Notified(rest) :: x.id < y.id
    ensures forall y, pid | y in Notified(rest) && Records(x, pid) :: !Records(y, pid)
  {
    if rest != [] {
      assert rest[0] in rest;
      NotifiedApart(x, rest[1..]);
      forall pid | Records(x, pid)
        ensures !Records(rest[0].(stateChanged := false), pid)
      {
        assert !Records(rest[0], pid);
      }
    }
  }
}
