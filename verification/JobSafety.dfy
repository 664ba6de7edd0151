/** Safety of job control over every run: the invariant of reachable worlds and what follows from it. */
module JobSafety {
  import opened Syntax
  import opened JobTable
  import opened JobRuns
  import opened JobInvariants

  /** A record that is not done belongs to a child of the job's group; a done one to a child that is gone. */
  ghost predicate RecordAgrees(job: Job, p: ProcessRecord, children: map<int, Child>, ends: map<int, WaitStatus>) {
    if p.state == Done then p.pid !in children && p.pid in ends && ends[p.pid] == p.waitStatus
    else p.pid in children && children[p.pid].pgid == job.pgid
  }

  ghost predicate Agrees(jobs: seq<Job>, children: map<int, Child>, ends: map<int, WaitStatus>) {
    && (forall job, p | job in jobs && p in job.processes :: RecordAgrees(job, p, children, ends))
    && forall job, k | job in jobs && k in children && children[k].pgid == job.pgid :: Records(job, k)
  }

  /** A child that has ended waits with its final status; a living one with none or a passing one. */
  ghost predicate KernelSound(children: map<int, Child>, ends: map<int, WaitStatus>) {
    forall k | k in children ::
      if children[k].alive then children[k].pending.Some? ==> !Terminal(children[k].pending.value)
      else
        && children[k].pending.Some? && Terminal(children[k].pending.value)
        && k in ends && ends[k] == children[k].pending.value
  }

  ghost predicate FlagSound(w: World) {
    w.mode != Draining && (exists k :: Collectable(w, k)) ==> w.flag || w.signalled
  }

  ghost predicate TerminalSound(w: World) {
    if w.mode.Foreground? then HasJob(w.jobs, w.mode.id) && w.owner == ForegroundJob(w).pgid
    else w.owner == SHELL_GROUP && w.tty == SHELL_MODES
  }

  ghost predicate ModesSound(w: World) {
    && (forall job | job in w.jobs :: job.modes == if job.id in w.saved then Some(w.saved[job.id]) else None)
    && forall id | id in w.saved :: id < w.nextId
  }

  ghost predicate NewsSound(w: World) {
    && w.announced !! w.finished
    && (forall id | id in w.announced + w.finished :: id < w.nextId)
    && forall job | job in w.jobs :: job.id !in w.announced + w.finished
  }

  ghost predicate Inv(w: World) {
    && 0 < w.nextId && GoodTable(w.jobs, w.nextId, w.log)
    && Agrees(w.jobs, w.children, w.ends) && KernelSound(w.children, w.ends)
    && FlagSound(w) && TerminalSound(w) && ModesSound(w) && NewsSound(w)
  }

  // ---------- the kernel and the table stay in agreement ----------

  lemma {:induction false} CollectableNotDone(w: World, pid: int)
    requires Agrees(w.jobs, w.children, w.ends) && pid in w.children
    ensures NotDone(w.jobs, pid)
  {
  }

  lemma {:induction false} ReapedRecords(w: World, pid: int)
    requires GoodTable(w.jobs, w.nextId, w.log) && Agrees(w.jobs, w.children, w.ends)
    requires KernelSound(w.children, w.ends) && Collectable(w, pid)
    ensures var w' := Reaped(w, pid);
            forall job, p | job in w'.jobs && p in job.processes :: RecordAgrees(job, p, w'.children, w.ends)
  {
    hide SoundJob, Updated, Replays, Numbered;
    var s := w.children[pid].pending.value;
    var jobs', children' := Updated(w.jobs, pid, s), Collected(w.children, pid);
    CollectableNotDone(w, pid);
    var i := UpdatedShape(w.jobs, pid, s);
    forall job, p | job in jobs' && p in job.processes
      ensures RecordAgrees(job, p, children', w.ends)
    {
      var j :| 0 <= j < |jobs'| && jobs'[j] == job;
      assert w.jobs[j] in w.jobs;
      if j == i {
        var a :| 0 <= a < |job.processes| && job.processes[a] == p;
        assert w.jobs[i].processes[a] in w.jobs[i].processes;
        assert RecordAgrees(w.jobs[i], w.jobs[i].processes[a], w.children, w.ends);
      } else {
        assert RecordAgrees(w.jobs[j], p, w.children, w.ends);
        assert Records(w.jobs[j], p.pid);
      }
    }
  }

  lemma {:induction false} ReapedGroups(w: World, pid: int)
    requires GoodTable(w.jobs, w.nextId, w.log) && Agrees(w.jobs, w.children, w.ends) && Collectable(w, pid)
    ensures var w' := Reaped(w, pid);
            forall job, k | job in w'.jobs && k in w'.children && w'.children[k].pgid == job.pgid :: Records(job, k)
  {
    hide SoundJob, Updated, Replays, Numbered, RecordAgrees, Records;
    var w' := Reaped(w, pid);
    CollectableNotDone(w, pid);
    var i := UpdatedShape(w.jobs, pid, w.children[pid].pending.value);
    forall job, k | job in w'.jobs && k in w'.children && w'.children[k].pgid == job.pgid
      ensures Records(job, k)
    {
      var j :| 0 <= j < |w'.jobs| && w'.jobs[j] == job;
      assert w.jobs[j] in w.jobs && Records(w.jobs[j], k);
      if j == i {
        SamePids(w.jobs[i], job, k);
      }
    }
  }

  lemma {:induction false} ForkedAgrees(w: World, pids: seq<int>)
    requires GoodTable(w.jobs, w.nextId, w.log) && Agrees(w.jobs, w.children, w.ends)
    requires KernelSound(w.children, w.ends) && FreshPids(w, pids)
    ensures Agrees(w.jobs, Forked(w, pids), w.ends) && KernelSound(Forked(w, pids), w.ends)
  {
    var children' := Forked(w, pids);
    forall job, p | job in w.jobs && p in job.processes
      ensures RecordAgrees(job, p, children', w.ends)
    {
      assert Records(job, p.pid);
    }
    forall job, k | job in w.jobs && k in children' && children'[k].pgid == job.pgid
      ensures Records(job, k)
    {
      assert job.processes[0] in job.processes;
      assert Records(job, job.pgid);
    }
  }

  lemma {:induction false} LaunchedAgrees(w: World, pids: seq<int>, command: string)
    requires GoodTable(w.jobs, w.nextId, w.log) && Agrees(w.jobs, w.children, w.ends)
    requires KernelSound(w.children, w.ends) && FreshPids(w, pids)
    ensures Agrees(w.jobs + [NewJob(w.nextId, pids[0], pids, pids[|pids| - 1], command)], Forked(w, pids), w.ends)
  {
    var job := NewJob(w.nextId, pids[0], pids, pids[|pids| - 1], command);
    ForkedAgrees(w, pids);
    NewJobSound(w.nextId, pids, command);
    forall p | p in job.processes
      ensures RecordAgrees(job, p, Forked(w, pids), w.ends)
    {
      assert Records(job, p.pid);
    }
    forall k | k in Forked(w, pids) && Forked(w, pids)[k].pgid == job.pgid
      ensures Records(job, k)
    {
      assert Fresh(w, pids[0]);
    }
  }

  /** Jobs that keep their pids, groups and which records are done agree with the same kernel. */
  lemma {:induction false} ReplacedAgrees(
    jobs: seq<Job>, children: map<int, Child>, ends: map<int, WaitStatus>, i: nat, job: Job)
    requires Agrees(jobs, children, ends) && i < |jobs| && job.pgid == jobs[i].pgid
    requires |job.processes| == |jobs[i].processes|
    requires forall a | 0 <= a < |job.processes| ::
               var p, q := job.processes[a], jobs[i].processes[a];
               p.pid == q.pid && p.waitStatus == q.waitStatus && (p.state == Done <==> q.state == Done)
    ensures Agrees(jobs[i := job], children, ends)
  {
    var jobs' := jobs[i := job];
    forall x, p | x in jobs' && p in x.processes
      ensures RecordAgrees(x, p, children, ends)
    {
      var j :| 0 <= j < |jobs'| && jobs'[j] == x;
      if j == i {
        var a :| 0 <= a < |job.processes| && job.processes[a] == p;
        assert jobs[i] in jobs && jobs[i].processes[a] in jobs[i].processes;
        assert RecordAgrees(jobs[i], jobs[i].processes[a], children, ends);
      } else {
        assert jobs[j] in jobs;
      }
    }
    forall x, k | x in jobs' && k in children && children[k].pgid == x.pgid
      ensures Records(x, k)
    {
      var j :| 0 <= j < |jobs'| && jobs'[j] == x;
      assert jobs[j] in jobs && Records(jobs[j], k);
      if j == i {
        SamePids(jobs[i], job, k);
      }
    }
  }

  lemma {:induction false} PostedAgrees(w: World, pid: int, status: WaitStatus)
    requires Inv(w) && Enabled(w, Post(pid, status))
    ensures var w' := Apply(w, Post(pid, status));
            Agrees(w.jobs, w'.children, w'.ends) && KernelSound(w'.children, w'.ends)
  {
    hide GoodTable, FlagSound, TerminalSound, ModesSound, NewsSound;
    var w' := Apply(w, Post(pid, status));
    forall job, p | job in w.jobs && p in job.processes
      ensures RecordAgrees(job, p, w'.children, w'.ends)
    {
      assert RecordAgrees(job, p, w.children, w.ends);
    }
  }

  lemma {:induction false} NotifiedAgrees(jobs: seq<Job>, children: map<int, Child>, ends: map<int, WaitStatus>)
    requires Agrees(jobs, children, ends) && forall job | job in jobs && job.state == Done :: job.stateChanged
    ensures Agrees(Notified(jobs), children, ends)
  {
    NotifiedMembers(jobs);
    forall job, p | job in Notified(jobs) && p in job.processes
      ensures RecordAgrees(job, p, children, ends)
    {
      var was :| was in jobs && job == was.(stateChanged := false);
      assert RecordAgrees(was, p, children, ends);
    }
    forall job, k | job in Notified(jobs) && k in children && children[k].pgid == job.pgid
      ensures Records(job, k)
    {
      var was :| was in jobs && job == was.(stateChanged := false);
      assert Records(was, k);
    }
  }

  // ---------- each step keeps the invariant ----------

  lemma {:induction false} KeptByPost(w: World, pid: int, status: WaitStatus)
    requires Inv(w) && Enabled(w, Post(pid, status))
    ensures Inv(Apply(w, Post(pid, status)))
  {
    PostedAgrees(w, pid, status);
    hide GoodTable, Agrees, KernelSound;
  }

  /** Jobs that keep their places, ids, groups and saved modes. */
  ghost predicate SamePlaces(jobs: seq<Job>, jobs': seq<Job>) {
    |jobs'| == |jobs| &&
    forall j | 0 <= j < |jobs| ::
      jobs'[j].id == jobs[j].id && jobs'[j].pgid == jobs[j].pgid && jobs'[j].modes == jobs[j].modes
  }

  lemma {:induction false} SamePlacesSound(w: World, jobs': seq<Job>)
    requires TerminalSound(w) && ModesSound(w) && NewsSound(w) && SamePlaces(w.jobs, jobs')
    ensures var w' := w.(jobs := jobs'); TerminalSound(w') && ModesSound(w') && NewsSound(w')
    ensures forall id :: IndexOf(jobs', id) == IndexOf(w.jobs, id)
  {
    forall id
      ensures IndexOf(jobs', id) == IndexOf(w.jobs, id)
    {
      IndexOfIs(jobs', id, IndexOf(w.jobs, id));
    }
    forall x | x in jobs'
      ensures exists y | y in w.jobs :: y.id == x.id && y.modes == x.modes
    {
      var j :| 0 <= j < |jobs'| && jobs'[j] == x;
      assert w.jobs[j] in w.jobs;
    }
  }

  lemma {:induction false} KeptByReaping(w: World, pid: int)
    requires Inv(w) && Collectable(w, pid)
    ensures Inv(Reaped(w, pid))
  {
    hide GoodTable, SoundJob, Updated, Agrees, KernelSound, RecordAgrees, TerminalSound, ModesSound, NewsSound;
    var w', s := Reaped(w, pid), w.children[pid].pending.value;
    CollectableNotDone(w, pid);
    ReapingTable(w, pid);
    SamePlacesSound(w, w'.jobs);
    SoundElsewhere(w, w');
    assert FlagSound(w') by {
      if k :| Collectable(w', k) {
        assert Collectable(w, k);
      }
    }
  }

  lemma {:induction false} ReapingTable(w: World, pid: int)
    requires Inv(w) && Collectable(w, pid)
    ensures var w' := Reaped(w, pid);
            GoodTable(w'.jobs, w'.nextId, w'.log) && Agrees(w'.jobs, w'.children, w'.ends) &&
            KernelSound(w'.children, w'.ends) && SamePlaces(w.jobs, w'.jobs)
  {
    hide SoundJob, Updated, RecordAgrees, FlagSound, TerminalSound, ModesSound, NewsSound;
    var s := w.children[pid].pending.value;
    CollectableNotDone(w, pid);
    UpdatedGood(w.jobs, w.nextId, w.log, pid, s);
    ReapedRecords(w, pid);
    ReapedGroups(w, pid);
    var i := UpdatedShape(w.jobs, pid, s);
  }

  /** These parts of the invariant do not look at the kernel, the log or the SIGCHLD flags. */
  lemma {:induction false} SoundElsewhere(w: World, w': World)
    requires var v := w.(jobs := w'.jobs); TerminalSound(v) && ModesSound(v) && NewsSound(v)
    requires w'.mode == w.mode && w'.owner == w.owner && w'.tty == w.tty && w'.saved == w.saved
    requires w'.announced == w.announced && w'.finished == w.finished && w'.nextId == w.nextId
    ensures TerminalSound(w') && ModesSound(w') && NewsSound(w')
  {
  }

  lemma {:induction false} KeptByLaunch(w: World, pids: seq<int>, command: string)
    requires Inv(w) && Enabled(w, Launch(pids, command))
    ensures Inv(Apply(w, Launch(pids, command)))
  {
    hide SoundJob, RecordAgrees;
    var w' := Apply(w, Launch(pids, command));
    AddedGood(w.jobs, w.nextId, w.log, pids, command);
    LaunchedAgrees(w, pids, command);
    ForkedAgrees(w, pids);
    assert FlagSound(w') by {
      if k :| Collectable(w', k) {
        assert Collectable(w, k);
      }
    }
  }

  lemma {:induction false} KeptByLaunchFails(w: World, pids: seq<int>)
    requires Inv(w) && Enabled(w, LaunchFails(pids))
    ensures Inv(Apply(w, LaunchFails(pids)))
  {
    hide SoundJob, RecordAgrees;
    var w' := Apply(w, LaunchFails(pids));
    ForkedAgrees(w, pids);
    assert FlagSound(w') by {
      if k :| Collectable(w', k) {
        assert Collectable(w, k);
      }
    }
  }

  lemma {:induction false} DoneIsNews(jobs: seq<Job>)
    requires SoundTable(jobs)
    ensures forall job | job in jobs && job.state == Done :: job.stateChanged
  {
  }

  lemma {:induction false} NotifiedNews(w: World)
    requires Inv(w) && w.mode == Ready
    ensures ModesSound(Apply(w, Notify)) && NewsSound(Apply(w, Notify))
  {
    hide SoundJob, RecordAgrees, FlagSound, Agrees, KernelSound, Replays, Notified, AnnouncedIds;
    var w' := Apply(w, Notify);
    DoneIsNews(w.jobs);
    NotifiedMembers(w.jobs);
    forall id | id in w'.announced + w'.finished
      ensures id < w.nextId && !(id in w'.announced && id in w'.finished)
    {
      if id in AnnouncedIds(w.jobs) {
        var was :| was in w.jobs && was.state == Done && was.id == id;
        assert was.id < w.nextId && was.id !in w.finished;
      } else {
        assert id in w.announced + w.finished;
      }
    }
    forall job | job in w'.jobs
      ensures job.id !in w'.announced + w'.finished
      ensures job.modes == if job.id in w.saved then Some(w.saved[job.id]) else None
    {
      var was :| was in w.jobs && was.state != Done && job == was.(stateChanged := false);
      if job.id in AnnouncedIds(w.jobs) {
        var d :| d in w.jobs && d.state == Done && d.id == job.id;
        DistinctIds(w.jobs, w.nextId, was, d);
      }
    }
  }

  lemma {:induction false} KeptByNotify(w: World)
    requires Inv(w) && Enabled(w, Notify)
    ensures Inv(Apply(w, Notify))
  {
    hide SoundJob, RecordAgrees, FlagSound, ModesSound, NewsSound, Notified, AnnouncedIds;
    var w' := Apply(w, Notify);
    DoneIsNews(w.jobs);
    NotifiedGood(w.jobs, w.nextId, w.log);
    NotifiedAgrees(w.jobs, w.children, w.ends);
    NotifiedNews(w);
    FlagUnchanged(w, w');
  }

  lemma {:induction false} DistinctIds(jobs: seq<Job>, nextId: int, a: Job, b: Job)
    requires Numbered(jobs, nextId) && a in jobs && b in jobs && a.id == b.id
    ensures a == b
  {
  }

  lemma {:induction false} FlagUnchanged(w: World, w': World)
    requires FlagSound(w) && w'.children == w.children && w'.flag == w.flag && w'.signalled == w.signalled
    requires w'.mode == w.mode || (w.mode != Draining && w'.mode != Draining)
    ensures FlagSound(w')
  {
    if k :| Collectable(w', k) {
      assert Collectable(w, k);
    }
  }

  lemma {:induction false} ContinuedTable(w: World, i: nat)
    requires Inv(w) && i < |w.jobs| && w.jobs[i].state == Stopped
    ensures var w' := Continue(w, i);
            && GoodTable(w'.jobs, w'.nextId, w'.log)
            && Agrees(w'.jobs, w'.children, w'.ends) && SamePlaces(w.jobs, w'.jobs)
  {
    hide SoundJob, RecordAgrees, FlagSound, TerminalSound, ModesSound, NewsSound;
    ResumedGood(w.jobs, w.nextId, w.log, i);
    ReplacedAgrees(w.jobs, w.children, w.ends, i, Resumed(w.jobs[i]));
  }

  /** Continuing a stopped job from the prompt keeps the invariant. */
  lemma {:induction false} KeptByContinue(w: World, i: nat)
    requires Inv(w) && w.mode == Ready && i < |w.jobs| && w.jobs[i].state == Stopped
    ensures Inv(Continue(w, i)) && SamePlaces(w.jobs, Continue(w, i).jobs)
  {
    hide GoodTable, Agrees, KernelSound, FlagSound, TerminalSound, ModesSound, NewsSound, Resumed, SamePlaces;
    var w' := Continue(w, i);
    ContinuedTable(w, i);
    SamePlacesSound(w, w'.jobs);
    SoundElsewhere(w, w');
    FlagUnchanged(w, w');
  }

  /** Handing the terminal to a job of the table keeps the invariant. */
  lemma {:induction false} KeptByGiving(w: World, id: int, m: Modes)
    requires Inv(w) && w.mode == Ready && HasJob(w.jobs, id)
    ensures Inv(w.(mode := Foreground(id), owner := w.jobs[IndexOf(w.jobs, id)].pgid, tty := m))
  {
    hide GoodTable, Agrees, KernelSound, FlagSound;
    FlagUnchanged(w, w.(mode := Foreground(id), owner := w.jobs[IndexOf(w.jobs, id)].pgid, tty := m));
  }

  lemma {:induction false} KeptByStartForeground(w: World, id: int, killed: bool)
    requires Inv(w) && Enabled(w, StartForeground(id, killed))
    ensures Inv(Apply(w, StartForeground(id, killed)))
  {
    hide Inv, Resumed;
    var i := IndexOf(w.jobs, id);
    var job := w.jobs[i];
    var m := if job.modes.Some? then job.modes.value else w.tty;
    if job.state != Stopped {
      KeptByGiving(w, id, m);
    } else {
      KeptByContinue(w, i);
      StartForegroundContinues(w, id, killed);
      IndexOfIs(Continue(w, i).jobs, id, i);
      KeptByGiving(Continue(w, i), id, m);
    }
  }

  /** At the prompt, continuing and then handing over the terminal is what `fg` does to a stopped job. */
  lemma {:induction false} StartForegroundContinues(w: World, id: int, killed: bool)
    requires Inv(w) && Enabled(w, StartForeground(id, killed)) && w.jobs[IndexOf(w.jobs, id)].state == Stopped
    ensures var job := w.jobs[IndexOf(w.jobs, id)];
            var v := Continue(w, IndexOf(w.jobs, id));
            var m := if job.modes.Some? then job.modes.value else w.tty;
            Apply(w, StartForeground(id, killed)) ==
            if killed then v.(mode := Foreground(id), owner := job.pgid, tty := m) else v
  {
    hide GoodTable, Agrees, KernelSound, FlagSound, ModesSound, NewsSound, Resumed;
  }

  lemma {:induction false} KeptByBackground(w: World, id: int, killed: bool)
    requires Inv(w) && Enabled(w, ResumeBackground(id, killed))
    ensures Inv(Apply(w, ResumeBackground(id, killed)))
  {
    hide Inv, Resumed;
    var i := IndexOf(w.jobs, id);
    if w.jobs[i].state == Stopped && killed {
      KeptByContinue(w, i);
    }
  }

  lemma {:induction false} FinishedTable(w: World)
    requires Inv(w) && Enabled(w, Finish)
    ensures var w' := Apply(w, Finish); GoodTable(w'.jobs, w'.nextId, w'.log) && Agrees(w'.jobs, w'.children, w'.ends)
  {
    hide SoundJob, RecordAgrees, FlagSound, KernelSound, ModesSound, NewsSound;
    var i := IndexOf(w.jobs, w.mode.id);
    var job := w.jobs[i];
    if job.state == Stopped {
      SeenGood(w.jobs, w.nextId, w.log, i, job.(modes := Some(w.tty), stateChanged := false));
      ReplacedAgrees(w.jobs, w.children, w.ends, i, job.(modes := Some(w.tty), stateChanged := false));
    } else if job.state == Done {
      RemovedGood(w.jobs, w.nextId, w.log, job.id);
    }
  }

  lemma {:induction false} StoppedNews(w: World, i: nat, m: Modes)
    requires ModesSound(w) && NewsSound(w) && Numbered(w.jobs, w.nextId) && i < |w.jobs|
    ensures var job := w.jobs[i].(modes := Some(m), stateChanged := false);
            var w' := w.(jobs := w.jobs[i := job], saved := w.saved[job.id := m]);
            ModesSound(w') && NewsSound(w')
  {
    var job := w.jobs[i].(modes := Some(m), stateChanged := false);
    var jobs', saved' := w.jobs[i := job], w.saved[job.id := m];
    assert w.jobs[i] in w.jobs;
    forall x | x in jobs'
      ensures x.id !in w.announced + w.finished
      ensures x.modes == if x.id in saved' then Some(saved'[x.id]) else None
    {
      var j :| 0 <= j < |jobs'| && jobs'[j] == x;
      assert w.jobs[j] in w.jobs;
      assert j != i ==> x.id != job.id;
    }
  }

  lemma {:induction false} DoneNews(w: World, i: nat)
    requires ModesSound(w) && NewsSound(w) && GoodTable(w.jobs, w.nextId, w.log) && i < |w.jobs|
    ensures var w' := w.(jobs := Removed(w.jobs, w.jobs[i].id), finished := w.finished + {w.jobs[i].id});
            ModesSound(w') && NewsSound(w')
  {
    hide SoundTable, Replays, Removed;
    assert w.jobs[i] in w.jobs;
    RemovedGood(w.jobs, w.nextId, w.log, w.jobs[i].id);
  }

  lemma {:induction false} ReclaimedNews(w: World)
    requires ModesSound(w) && NewsSound(w)
    ensures ModesSound(Reclaimed(w).(mode := Ready)) && NewsSound(Reclaimed(w).(mode := Ready))
  {
  }

  lemma {:induction false} FinishedNews(w: World)
    requires Inv(w) && Enabled(w, Finish)
    ensures ModesSound(Apply(w, Finish)) && NewsSound(Apply(w, Finish))
  {
    hide GoodTable, FlagSound, KernelSound, Agrees, Removed, TerminalSound, ModesSound, NewsSound;
    var i := IndexOf(w.jobs, w.mode.id);
    var job := w.jobs[i];
    if job.state == Stopped {
      assert Numbered(w.jobs, w.nextId) by { InvNumbered(w); }
      StoppedNews(w, i, w.tty);
      var kept := w.jobs[i := job.(modes := Some(w.tty), stateChanged := false)];
      ReclaimedNews(w.(jobs := kept, saved := w.saved[job.id := w.tty]));
    } else if job.state == Done {
      DoneNews(w, i);
      ReclaimedNews(w.(jobs := Removed(w.jobs, job.id), finished := w.finished + {job.id}));
    } else {
      ReclaimedNews(w);
    }
  }

  lemma {:induction false} InvNumbered(w: World)
    requires Inv(w)
    ensures Numbered(w.jobs, w.nextId)
  {
  }

  lemma {:induction false} KeptByFinish(w: World)
    requires Inv(w) && Enabled(w, Finish)
    ensures Inv(Apply(w, Finish))
  {
    hide GoodTable, Agrees, KernelSound, FlagSound, ModesSound, NewsSound, Removed;
    FinishedTable(w);
    FinishedNews(w);
    FlagUnchanged(w, Apply(w, Finish));
  }

  lemma {:induction false} KeptByEndReap(w: World)
    requires Inv(w) && Enabled(w, EndReap)
    ensures Inv(Apply(w, EndReap))
  {
    hide GoodTable, Agrees, KernelSound;
    assert forall k :: !Collectable(Apply(w, EndReap), k);
  }

  lemma {:induction false} KeptByStep(w: World, step: Step)
    requires Inv(w) && Enabled(w, step)
    ensures Inv(Apply(w, step))
  {
    hide GoodTable, Agrees, KernelSound;
    match step
    case Post(pid, status) => KeptByPost(w, pid, status);
    case Launch(pids, command) => KeptByLaunch(w, pids, command);
    case LaunchFails(pids) => KeptByLaunchFails(w, pids);
    case ReapOne(pid) => KeptByReaping(w, pid);
    case EndReap => KeptByEndReap(w);
    case Notify => KeptByNotify(w);
    case StartForeground(id, killed) => KeptByStartForeground(w, id, killed);
    case WaitOne(pid) => KeptByReaping(w, pid);
    case Finish => KeptByFinish(w);
    case ResumeBackground(id, killed) => KeptByBackground(w, id, killed);
    case ChangeModes(m) => FlagUnchanged(w, w.(tty := m));
    case Deliver =>
    case StartReap =>
  }

  lemma {:induction false} InvHolds(steps: seq<Step>, w: World)
    requires RunFrom(Init(), steps) == Some(w)
    ensures Inv(w)
  {
    if steps != [] {
      var last := |steps| - 1;
      var v := RunFrom(Init(), steps[..last]).value;
      InvHolds(steps[..last], v);
      KeptByStep(v, steps[last]);
    }
  }
}
