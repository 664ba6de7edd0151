/** The guarantees of job control, stated for every world some run reaches. */
module JobTheorems {
  import opened Syntax
  import opened JobTable
  import opened JobRuns
  import opened JobInvariants
  import opened JobSafety
  import C = JobControl
  import N = JobNews

  lemma {:induction false} ReachableInv(w: World)
    requires Reachable(w)
    ensures Inv(w)
  {
    var steps :| RunFrom(Init(), steps) == Some(w);
    InvHolds(steps, w);
  }

  /** Every record is what the events of its pid leave, and every job's state is what its records say. */
  lemma {:induction false} TableReplaysHistory(w: World)
    requires Reachable(w)
    ensures forall job, p | job in w.jobs && p in job.processes :: Replay(w.log, p.pid) == Some(p)
    ensures forall job | job in w.jobs ::
              && (job.state == Done <==> forall p | p in job.processes :: p.state == Done)
              && (job.state == Running <==> exists p | p in job.processes :: p.state == Running)
  {
    ReachableInv(w);
  }

  /** Outside the drain loop an uncollected event always has the flag set or the signal on its way. */
  lemma {:induction false} NoLostEvent(w: World, pid: int)
    requires Reachable(w) && w.mode != Draining && Collectable(w, pid)
    ensures w.flag || w.signalled
  {
    ReachableInv(w);
  }

  /** When a drain ends every event that was pending has been collected into the table. */
  lemma {:induction false} DrainCollectsAll(w: World)
    requires Reachable(w) && Enabled(w, EndReap)
    ensures forall job, p | job in w.jobs && p in job.processes && p.state != Done ::
              p.pid in w.children && w.children[p.pid].alive && w.children[p.pid].pending.None?
  {
    ReachableInv(w);
    forall job, p | job in w.jobs && p in job.processes && p.state != Done
      ensures p.pid in w.children && w.children[p.pid].alive && w.children[p.pid].pending.None?
    {
      assert RecordAgrees(job, p, w.children, w.ends);
      assert !Collectable(w, p.pid);
    }
  }

  /** While the foreground job runs, its group has a child: the wait cannot fail for want of children. */
  lemma {:induction false} ForegroundHasChild(w: World)
    requires Inv(w) && w.mode.Foreground? && ForegroundJob(w).state == Running
    ensures GroupHasChild(w, ForegroundJob(w).pgid)
  {
    var job := ForegroundJob(w);
    assert job in w.jobs;
    var p :| p in job.processes && p.state == Running;
    assert RecordAgrees(job, p, w.children, w.ends);
  }

  /** The status that the end of a command stands for. */
  predicate StatusOfEnd(end: WaitStatus, status: int) {
    (end.Exited? && status == end.code) || (end.Signaled? && status == 128 + end.signal)
  }

  /**
    The foreground wait ends only with the job stopped or done. A done job is gone from the table and its result is the
    final status of its last command, whatever order the events came in. A stopped job reports the signal that stopped
    its last command; if that command had ended before, its final status, and 148 in place of 0.
   */
  lemma {:induction false} ForegroundResult(w: World)
    requires Reachable(w) && Enabled(w, Finish)
    ensures ForegroundJob(w).processes != []
    ensures var job := ForegroundJob(w);
            var last := job.processes[|job.processes| - 1];
            && last.pid == job.lastPid && job.state != Running && last.state != Running
            && (job.state == Done ==>
                  && job.lastPid in w.ends && StatusOfEnd(w.ends[job.lastPid], FinishStatus(job))
                  && forall x | x in Apply(w, Finish).jobs :: x.id != job.id)
            && (job.state == Stopped && last.state == Stopped ==>
                  last.waitStatus.StoppedBy? && FinishStatus(job) == 128 + last.waitStatus.signal)
            && (job.state == Stopped && last.state == Done ==>
                  && job.lastPid in w.ends
                  && if w.ends[job.lastPid] == Exited(0) then FinishStatus(job) == 148
                     else StatusOfEnd(w.ends[job.lastPid], FinishStatus(job)))
            && (job.state == Stopped ==> FinishStatus(job) != 0)
  {
    hide Reachable, GoodTable, KernelSound, NewsSound, ModesSound, FlagSound;
    ReachableInv(w);
    var job := ForegroundJob(w);
    assert job in w.jobs;
    if job.state == Running {
      ForegroundHasChild(w);
    }
    LastStatus(w, job);
    if job.state == Done {
      RemovedIds(w, job.id);
    }
  }

  /** The status kept for a job, by what its last command did. */
  lemma {:induction false} LastStatus(w: World, job: Job)
    requires Inv(w) && job in w.jobs && job.state != Running
    ensures job.processes != []
    ensures var last := job.processes[|job.processes| - 1];
            && last.pid == job.lastPid && (last.state == Done || (last.state == Stopped && job.state == Stopped))
            && (last.state == Done ==> job.lastPid in w.ends && StatusOfEnd(w.ends[job.lastPid], job.lastStatus))
            && (last.state == Stopped ==> last.waitStatus.StoppedBy? && job.lastStatus == 128 + last.waitStatus.signal)
  {
    var last := job.processes[|job.processes| - 1];
    assert last in job.processes && RecordAgrees(job, last, w.children, w.ends);
    assert Replay(w.log, last.pid) == Some(last);
    ReplayedStatus(w.log, last.pid);
  }

  /** A done record holds a final status, a stopped one a stop. */
  lemma {:induction false} ReplayedStatus(log: seq<Event>, pid: int)
    requires Replay(log, pid).Some?
    ensures var p := Replay(log, pid).value;
            && (p.state == Done ==> p.waitStatus.Exited? || p.waitStatus.Signaled?)
            && (p.state == Stopped ==> p.waitStatus.StoppedBy?)
  {
    var earlier := log[..|log| - 1];
    if Replay(earlier, pid).Some? {
      ReplayedStatus(earlier, pid);
    }
  }

  lemma {:induction false} RemovedIds(w: World, id: int)
    requires Inv(w)
    ensures forall x | x in Removed(w.jobs, id) :: x.id != id
  {
    RemovedGood(w.jobs, w.nextId, w.log, id);
  }

  /** Waiting for the foreground job never touches another job. */
  lemma {:induction false} WaitTouchesOnlyForeground(w: World, pid: int)
    requires Reachable(w) && Enabled(w, WaitOne(pid))
    ensures var i, w' := IndexOf(w.jobs, w.mode.id), Apply(w, WaitOne(pid));
            |w'.jobs| == |w.jobs| && forall j | 0 <= j < |w.jobs| && j != i :: w'.jobs[j] == w.jobs[j]
  {
    ReachableInv(w);
    var i := IndexOf(w.jobs, w.mode.id);
    CollectableNotDone(w, pid);
    assert Records(w.jobs[i], pid);
    var k := UpdatedShape(w.jobs, pid, w.children[pid].pending.value);
  }

  /** Each notification reports every done job, for the first time, and leaves none behind. */
  lemma {:induction false} DoneReportedOnce(w: World)
    requires Reachable(w) && Enabled(w, Notify)
    ensures var w' := Apply(w, Notify);
            && (forall job | job in w'.jobs :: job.state != Done)
            && (forall job | job in w.jobs && job.state == Done ::
                  job.id in w'.announced && job.id !in w.announced && job.id !in w'.finished)
            && (forall id | id in w'.announced && id !in w.announced ::
                  exists job | job in w.jobs :: job.state == Done && job.id == id)
  {
    ReachableInv(w);
    DoneIsNews(w.jobs);
    NotifiedMembers(w.jobs);
  }

  /** A job is announced at the prompt or finishes in the foreground, never both, and then leaves the table for good. */
  lemma {:induction false} NeverBoth(w: World)
    requires Reachable(w)
    ensures w.announced !! w.finished && forall job | job in w.jobs :: job.id !in w.announced && job.id !in w.finished
  {
    ReachableInv(w);
  }

  /** The shell owns the terminal, in its own modes, whenever no job is in the foreground. */
  lemma {:induction false} TerminalOwnership(w: World)
    requires Reachable(w)
    ensures if w.mode.Foreground? then HasJob(w.jobs, w.mode.id) && w.owner == ForegroundJob(w).pgid
            else w.owner == SHELL_GROUP && w.tty == SHELL_MODES
  {
    ReachableInv(w);
  }

  /** `fg` puts back the terminal modes saved when the job last stopped in the foreground. */
  lemma {:induction false} ForegroundRestoresModes(w: World, id: int)
    requires Reachable(w) && Enabled(w, StartForeground(id, true))
    ensures var w' := Apply(w, StartForeground(id, true));
            && w'.tty == (if id in w.saved then w.saved[id] else SHELL_MODES)
            && w'.owner == w.jobs[IndexOf(w.jobs, id)].pgid
  {
    hide Reachable, GoodTable, Agrees, KernelSound, NewsSound, FlagSound, WokenAll, Pids;
    ReachableInv(w);
    assert w.jobs[IndexOf(w.jobs, id)] in w.jobs;
  }

  /** Ids increase along the table, and a new job's id was never given before. */
  lemma {:induction false} IdsNeverReused(w: World)
    requires Reachable(w)
    ensures forall i, j | 0 <= i < j < |w.jobs| :: w.jobs[i].id < w.jobs[j].id
    ensures forall job | job in w.jobs :: job.id < w.nextId
    ensures forall id | id in w.announced || id in w.finished || id in w.saved :: id < w.nextId
  {
    ReachableInv(w);
  }

  /** The job an empty spec means, marked `+`, is the live job with the greatest id. */
  lemma {:induction false} CurrentIsNewest(w: World)
    requires Reachable(w)
    ensures var c := Current(w.jobs);
            if c < 0 then forall job | job in w.jobs :: job.state == Done
            else w.jobs[c].state != Done && forall job | job in w.jobs && job.state != Done :: job.id <= w.jobs[c].id
  {
    hide SoundTable, Replays, Agrees, KernelSound, FlagSound, TerminalSound, ModesSound, NewsSound;
    ReachableInv(w);
  }

  predicate Newest(line: C.Line, lines: seq<C.Line>) {
    forall other | other in lines :: other.id <= line.id
  }

  lemma {:induction false} NewestLine(jobs: seq<Job>, c: int, line: C.Line)
    requires 0 <= c < |jobs| && jobs[c].state != Done && line in C.Listing(jobs, jobs[c].id)
    requires forall job | job in jobs && job.state != Done :: job.id <= jobs[c].id
    ensures line.current <==> Newest(line, C.Listing(jobs, jobs[c].id))
  {
    hide C.Listing;
    N.ListedJobs(jobs, jobs[c].id);
    var newest := C.Line(jobs[c].id, true, jobs[c].state, jobs[c].command);
    assert jobs[c] in jobs && newest in C.Listing(jobs, jobs[c].id);
  }

  /** The listing shows every live job, no done one, and marks exactly the newest. */
  lemma {:induction false} ListingMarksNewest(w: World, lines: seq<C.Line>)
    requires Reachable(w) && lines == C.Listing(w.jobs, C.CurrentId(w.jobs))
    ensures forall job | job in w.jobs && job.state != Done ::
              C.Line(job.id, job.id == C.CurrentId(w.jobs), job.state, job.command) in lines
    ensures forall line | line in lines :: line.state != Done && (line.current <==> Newest(line, lines))
  {
    hide C.Listing, Reachable, Newest;
    CurrentIsNewest(w);
    N.ListedJobs(w.jobs, C.CurrentId(w.jobs));
    forall line | line in lines
      ensures line.current <==> Newest(line, lines)
    {
      NewestLine(w.jobs, Current(w.jobs), line);
    }
  }

  // ---------- why pids must not be reused while recorded ----------

  /** An event reaches the newest job exactly when no earlier job still records its pid. */
  lemma {:induction false} EventReachesNewJob(jobs: seq<Job>, id: int, pids: seq<int>, command: string, pid: int)
    requires pid in pids
    ensures JobOf(jobs + [NewJob(id, pids[0], pids, pids[|pids| - 1], command)], pid) == |jobs| <==>
            forall job | job in jobs :: !Records(job, pid)
  {
    var job := NewJob(id, pids[0], pids, pids[|pids| - 1], command);
    var i :| 0 <= i < |pids| && pids[i] == pid;
    assert job.processes[i] in job.processes && Records(job, pid);
    var jobs' := jobs + [job];
    assert jobs'[|jobs|] == job && forall j | 0 <= j < |jobs| :: jobs'[j] == jobs[j];
    if x :| x in jobs && Records(x, pid) {
      var j :| 0 <= j < |jobs| && jobs[j] == x;
      assert Records(jobs'[j], pid);
    } else {
      assert forall j | 0 <= j < |jobs| :: !Records(jobs'[j], pid);
    }
  }

  // ---------- the methods of the job control object are runs of the machine ----------

  /** The steps that can happen while the shell sits in one of its two wait loops. */
  predicate WhileWaiting(step: Step) {
    step.Post? || step.Deliver? || step.ChangeModes? || step.ReapOne? || step.WaitOne?
  }

  /** The statuses the shell collects along a run, in order. */
  function Collections(w: World, steps: seq<Step>): seq<C.WaitResult>
    requires RunFrom(w, steps).Some?
  {
    if steps == [] then []
    else
      var last := |steps| - 1;
      var v := RunFrom(w, steps[..last]).value;
      match steps[last]
      case ReapOne(pid) => Collections(w, steps[..last]) + [C.Reported(pid, v.children[pid].pending.value)]
      case WaitOne(pid) => Collections(w, steps[..last]) + [C.Reported(pid, v.children[pid].pending.value)]
      case _ => Collections(w, steps[..last])
  }

  lemma {:induction false} WaitingStep(v: World, step: Step)
    requires Enabled(v, step) && WhileWaiting(step)
    ensures Apply(v, step).mode == v.mode
    ensures if step.ReapOne? || step.WaitOne?
            then
              && Collectable(v, step.pid)
              && Apply(v, step).jobs == Updated(v.jobs, step.pid, v.children[step.pid].pending.value)
            else Apply(v, step).jobs == v.jobs
  {
  }

  /** However child events interleave with the collecting, the table records the statuses in the order collected. */
  lemma {:induction false} WaitingRecords(w: World, steps: seq<Step>)
    requires RunFrom(w, steps).Some? && forall step | step in steps :: WhileWaiting(step)
    ensures RunFrom(w, steps).value.jobs == C.Recorded(w.jobs, Collections(w, steps))
    ensures RunFrom(w, steps).value.mode == w.mode
  {
    hide Apply, Enabled, Updated;
    if steps != [] {
      var last := |steps| - 1;
      var v, events := RunFrom(w, steps[..last]).value, Collections(w, steps[..last]);
      WaitingRecords(w, steps[..last]);
      WaitingStep(v, steps[last]);
      if steps[last].ReapOne? || steps[last].WaitOne? {
        var e := C.Reported(steps[last].pid, v.children[steps[last].pid].pending.value);
        assert Collections(w, steps) == events + [e];
        assert (events + [e])[..|events|] == events;
      }
    }
  }

  /** The foreground wait takes every status the run collects, because it collects only while the job runs. */
  lemma {:induction false} ForegroundTakesAll(w: World, steps: seq<Step>, k: nat)
    requires w.mode.Foreground? && RunFrom(w, steps).Some? && forall step | step in steps :: WhileWaiting(step)
    requires k < |Collections(w, steps)|
    ensures C.RunningJob(C.Recorded(w.jobs, Collections(w, steps)[..k]), w.mode.id)
  {
    var last := |steps| - 1;
    var events := Collections(w, steps[..last]);
    if k < |events| {
      ForegroundTakesAll(w, steps[..last], k);
      assert Collections(w, steps)[..k] == events[..k];
    } else {
      WaitingRecords(w, steps[..last]);
      assert Collections(w, steps)[..k] == events;
    }
  }

  /** Bringing a job to the foreground, over any interleaving, leaves the table and status of `WaitForeground`. */
  lemma {:induction false} ForegroundRefines(w: World, id: int, steps: seq<Step>)
    requires Enabled(w, StartForeground(id, true))
    requires var v := Apply(w, StartForeground(id, true));
             && (forall step | step in steps :: WhileWaiting(step))
             && RunFrom(v, steps).Some? && Enabled(RunFrom(v, steps).value, Finish)
    ensures var v := Apply(w, StartForeground(id, true));
            var u := RunFrom(v, steps).value;
            (Apply(u, Finish).jobs, FinishStatus(ForegroundJob(u))) ==
            C.ForegroundOutcome(
              w.jobs, id, w.jobs[IndexOf(w.jobs, id)].state == Stopped, true, Collections(v, steps), Some(u.tty))
  {
    var v := Apply(w, StartForeground(id, true));
    var events := Collections(v, steps);
    WaitingRecords(v, steps);
    forall k | 0 <= k < |events|
      ensures C.RunningJob(C.Recorded(v.jobs, events[..k]), id)
    {
      ForegroundTakesAll(v, steps, k);
    }
    C.TakenIs(v.jobs, id, events, |events|);
    assert events[..|events|] == events;
  }

  /** Where the job cannot be continued, or does not exist, both end without waiting and report 1. */
  lemma {:induction false} ForegroundFails(w: World, id: int, events: seq<C.WaitResult>, tty: Option<Modes>)
    ensures !HasJob(w.jobs, id) ==>
              forall continueJob, continued ::
                C.ForegroundOutcome(w.jobs, id, continueJob, continued, events, tty) == (w.jobs, 1)
    ensures Enabled(w, StartForeground(id, false)) && w.jobs[IndexOf(w.jobs, id)].state == Stopped ==>
              var w' := Apply(w, StartForeground(id, false));
              w'.mode == Ready && C.ForegroundOutcome(w.jobs, id, true, false, events, tty) == (w'.jobs, 1)
  {
  }

  /** `bg` continues every process of a stopped job that is not done, and leaves a running job alone. */
  lemma {:induction false} BackgroundContinues(w: World, id: int)
    requires Enabled(w, ResumeBackground(id, true))
    ensures var i, w' := IndexOf(w.jobs, id), Apply(w, ResumeBackground(id, true));
            && |w'.jobs| == |w.jobs| && w'.jobs[i].state == Running
            && (forall j | 0 <= j < |w.jobs| && j != i :: w'.jobs[j] == w.jobs[j])
            && |w'.jobs[i].processes| == |w.jobs[i].processes|
            && (w.jobs[i].state == Running ==> w'.jobs[i] == w.jobs[i])
            && (w.jobs[i].state == Stopped ==>
                  forall a | 0 <= a < |w.jobs[i].processes| ::
                    var p, p' := w.jobs[i].processes[a], w'.jobs[i].processes[a];
                    p'.pid == p.pid && p'.state == if p.state == Done then Done else Running)
  {
    hide Records, Pids;
  }
}
