/**
  What the user is told about jobs: which notifications appear, what the listing shows, which job a command without a
  spec means, and which terminal modes come back. Each is stated by the run so far, not by the marks in the table.
 */
module JobNews {
  import opened Syntax
  import opened JobTable
  import opened JobRuns
  import opened JobInvariants
  import opened JobSafety
  import C = JobControl

  // ---------- stops the user has been told about ----------

  function StoppedIds(jobs: seq<Job>): set<int> {
    set job | job in jobs && job.state == Stopped :: job.id
  }

  /** The stops a step tells the user: a notification all of them, the end of a foreground wait that of its job. */
  function Telling(w: World, step: Step): set<int>
    requires Enabled(w, step)
  {
    match step
    case Notify => StoppedIds(w.jobs)
    case Finish => if ForegroundJob(w).state == Stopped then {w.mode.id} else {}
    case _ => {}
  }

  /** The jobs that are stopped and whose stop the user has been told since they last ran. */
  function Told(steps: seq<Step>): set<int>
    requires RunFrom(Init(), steps).Some?
  {
    if steps == [] then {}
    else
      var last := |steps| - 1;
      var w := RunFrom(Init(), steps[..last]).value;
      (Told(steps[..last]) + Telling(w, steps[last])) * StoppedIds(Apply(w, steps[last]).jobs)
  }

  /** A stopped job is marked as changed exactly when its stop has not been told. */
  ghost predicate Marked(jobs: seq<Job>, told: set<int>) {
    && told <= StoppedIds(jobs)
    && forall job | job in jobs && job.state == Stopped :: job.stateChanged <==> job.id !in told
  }

  lemma {:induction false} MarkedElsewhere(jobs: seq<Job>, nextId: int, told: set<int>, i: nat, job: Job)
    requires Numbered(jobs, nextId) && Marked(jobs, told) && i < |jobs| && job.id == jobs[i].id
    requires job.state == Stopped ==>
               (job.stateChanged <==> !(jobs[i].state == Stopped && !jobs[i].stateChanged))
    ensures Marked(jobs[i := job], told * StoppedIds(jobs[i := job]))
  {
    var jobs' := jobs[i := job];
    assert jobs[i] in jobs;
    if job.id in told {
      var x :| x in jobs && x.state == Stopped && x.id == job.id;
      DistinctIds(jobs, nextId, x, jobs[i]);
    }
    forall x | x in jobs' && x.state == Stopped
      ensures x.id in StoppedIds(jobs') && (x.stateChanged <==> x.id !in told)
    {
      var j :| 0 <= j < |jobs'| && jobs'[j] == x;
      assert jobs[j] in jobs;
    }
  }

  lemma {:induction false} MarkedByReaping(w: World, pid: int, told: set<int>)
    requires Inv(w) && Collectable(w, pid) && Marked(w.jobs, told)
    ensures Marked(Reaped(w, pid).jobs, told * StoppedIds(Reaped(w, pid).jobs))
  {
    hide Marked, Inv, JobUpdated;
    var status := w.children[pid].pending.value;
    var i := JobOf(w.jobs, pid);
    InvNumbered(w);
    if i < |w.jobs| {
      UpdatedMark(w.jobs[i], pid, status);
      MarkedElsewhere(w.jobs, w.nextId, told, i, JobUpdated(w.jobs[i], pid, status));
    } else {
      MarkedSame(w.jobs, told);
    }
  }

  lemma {:induction false} UpdatedMark(job: Job, pid: int, s: WaitStatus)
    ensures var job' := JobUpdated(job, pid, s);
            job'.id == job.id && (job'.stateChanged <==> job.stateChanged || job'.state != job.state)
  {
  }

  lemma {:induction false} MarkedSame(jobs: seq<Job>, told: set<int>)
    requires Marked(jobs, told)
    ensures Marked(jobs, told * StoppedIds(jobs)) && told * StoppedIds(jobs) == told
  {
  }

  lemma {:induction false} MarkedByLaunch(jobs: seq<Job>, job: Job, told: set<int>)
    requires Marked(jobs, told) && job.state == Running
    ensures Marked(jobs + [job], told * StoppedIds(jobs + [job]))
  {
    forall x | x in jobs ensures x in jobs + [job] {
    }
    assert StoppedIds(jobs + [job]) == StoppedIds(jobs);
  }

  lemma {:induction false} MarkedByNotify(jobs: seq<Job>, told: set<int>)
    requires SoundTable(jobs) && Marked(jobs, told)
    ensures Marked(Notified(jobs), (told + StoppedIds(jobs)) * StoppedIds(Notified(jobs)))
  {
    DoneIsNews(jobs);
    NotifiedMembers(jobs);
    forall x | x in Notified(jobs) && x.state == Stopped
      ensures !x.stateChanged && x.id in StoppedIds(jobs)
    {
      var was :| was in jobs && was.state != Done && x == was.(stateChanged := false);
    }
  }

  lemma {:induction false} MarkedByFinish(w: World, told: set<int>)
    requires Inv(w) && Enabled(w, Finish) && Marked(w.jobs, told)
    ensures var jobs' := Apply(w, Finish).jobs; Marked(jobs', (told + Telling(w, Finish)) * StoppedIds(jobs'))
  {
    hide Inv, Marked, Reclaimed;
    var i := IndexOf(w.jobs, w.mode.id);
    var job := w.jobs[i];
    InvNumbered(w);
    assert told + {} == told;
    match job.state
    case Stopped => MarkedByStop(w.jobs, w.nextId, told, i, Some(w.tty));
    case Done => MarkedByRemoval(w, told, job.id);
    case Running => MarkedSame(w.jobs, told);
  }

  lemma {:induction false} MarkedByStop(jobs: seq<Job>, nextId: int, told: set<int>, i: nat, tty: Option<Modes>)
    requires Numbered(jobs, nextId) && Marked(jobs, told) && i < |jobs| && jobs[i].state == Stopped && tty.Some?
    ensures var jobs' := Concluded(jobs, i, tty); Marked(jobs', (told + {jobs[i].id}) * StoppedIds(jobs'))
  {
    var jobs' := Concluded(jobs, i, tty);
    forall x | x in jobs' && x.state == Stopped
      ensures x.id in StoppedIds(jobs') && (x.stateChanged <==> x.id !in told + {jobs[i].id})
    {
      var j :| 0 <= j < |jobs'| && jobs'[j] == x;
      assert jobs[j] in jobs && jobs[i] in jobs;
    }
  }

  lemma {:induction false} MarkedByRemoval(w: World, told: set<int>, id: int)
    requires Inv(w) && Marked(w.jobs, told)
    requires forall job | job in w.jobs && job.id == id :: job.state == Done
    ensures Marked(Removed(w.jobs, id), told * StoppedIds(Removed(w.jobs, id)))
  {
    hide SoundTable, Replays, Removed, Agrees, KernelSound, FlagSound, TerminalSound, ModesSound, NewsSound;
    RemovedGood(w.jobs, w.nextId, w.log, id);
  }

  lemma {:induction false} MarkedByContinue(w: World, i: nat, told: set<int>)
    requires Inv(w) && i < |w.jobs| && Marked(w.jobs, told)
    ensures Marked(Continue(w, i).jobs, told * StoppedIds(Continue(w, i).jobs))
  {
    hide Marked, Inv, WokenAll;
    InvNumbered(w);
    MarkedElsewhere(w.jobs, w.nextId, told, i, Resumed(w.jobs[i]));
  }

  lemma {:induction false} InvSound(w: World)
    requires Inv(w)
    ensures SoundTable(w.jobs)
  {
  }

  lemma {:induction false} MarkedByStep(w: World, step: Step, told: set<int>)
    requires Inv(w) && Enabled(w, step) && Marked(w.jobs, told)
    ensures var jobs' := Apply(w, step).jobs; Marked(jobs', (told + Telling(w, step)) * StoppedIds(jobs'))
  {
    hide Marked, StoppedIds, Notified, Updated, Concluded, Resumed, GoodTable, Agrees, KernelSound, FlagSound,
         TerminalSound, ModesSound, NewsSound, AnnouncedIds, Forked, Collected, Pids;
    assert told + {} == told;
    MarkedSame(w.jobs, told);
    match step {
      case Launch(pids, command) =>
        MarkedByLaunch(w.jobs, NewJob(w.nextId, pids[0], pids, pids[|pids| - 1], command), told);
      case ReapOne(pid) => MarkedByReaping(w, pid, told);
      case WaitOne(pid) => MarkedByReaping(w, pid, told);
      case Notify => InvSound(w); MarkedByNotify(w.jobs, told);
      case StartForeground(id, _) => MarkedByContinue(w, IndexOf(w.jobs, id), told);
      case ResumeBackground(id, _) => MarkedByContinue(w, IndexOf(w.jobs, id), told);
      case Finish => MarkedByFinish(w, told);
      case _ =>
    }
  }

  lemma {:induction false} MarkedHolds(steps: seq<Step>, w: World)
    requires RunFrom(Init(), steps) == Some(w)
    ensures Marked(w.jobs, Told(steps))
  {
    hide Inv, Enabled, Apply, Marked;
    if steps == [] {
      NothingMarked();
    } else {
      var last := |steps| - 1;
      var v := RunFrom(Init(), steps[..last]).value;
      MarkedHolds(steps[..last], v);
      InvHolds(steps[..last], v);
      MarkedByStep(v, steps[last], Told(steps[..last]));
    }
  }

  lemma {:induction false} NothingMarked()
    ensures Marked([], {})
  {
  }

  // ---------- notifications ----------

  lemma {:induction false} NoticeMembers(jobs: seq<Job>)
    ensures forall n :: n in C.Notices(jobs) <==>
              exists job | job in jobs :: job.stateChanged && job.state != Running && n == C.Notice(job.id, job.state)
  {
    if jobs != [] {
      var last := |jobs| - 1;
      NoticeMembers(jobs[..last]);
      assert jobs == jobs[..last] + [jobs[last]];
    }
  }

  lemma {:induction false} NoticesInOrder(jobs: seq<Job>)
    requires forall i, j | 0 <= i < j < |jobs| :: jobs[i].id < jobs[j].id
    ensures forall i, j | 0 <= i < j < |C.Notices(jobs)| :: C.Notices(jobs)[i].id < C.Notices(jobs)[j].id
  {
    if jobs != [] {
      var last := |jobs| - 1;
      NoticesInOrder(jobs[..last]);
      NoticeMembers(jobs[..last]);
      forall n | n in C.Notices(jobs[..last])
        ensures n.id < jobs[last].id
      {
        var job :| job in jobs[..last] && n == C.Notice(job.id, job.state);
      }
    }
  }

  /**
    What a notification says, in every run: every done job is reported as done; a stopped job is reported as stopped if
    and only if the user has not been told of that stop, neither by an earlier notification nor at the end of a
    foreground wait; nothing else is reported, and each job once, in the order of ids.
   */
  lemma {:induction false} NoticesExact(steps: seq<Step>, w: World, n: C.Notice)
    requires RunFrom(Init(), steps) == Some(w)
    ensures n in C.Notices(w.jobs) <==>
            exists job | job in w.jobs ::
              && n.id == job.id && n.state == job.state
              && (job.state == Done || (job.state == Stopped && job.id !in Told(steps)))
    ensures forall i, j | 0 <= i < j < |C.Notices(w.jobs)| :: C.Notices(w.jobs)[i].id < C.Notices(w.jobs)[j].id
  {
    hide C.Notices, RunFrom, Told;
    InvHolds(steps, w);
    MarkedHolds(steps, w);
    DoneIsNews(w.jobs);
    NoticeMembers(w.jobs);
    NoticesInOrder(w.jobs);
  }

  // ---------- the listing ----------

  lemma {:induction false} ListedJobs(jobs: seq<Job>, current: int)
    ensures forall line | line in C.Listing(jobs, current) ::
              exists job | job in jobs ::
                job.state != Done && line == C.Line(job.id, job.id == current, job.state, job.command)
    ensures forall job | job in jobs && job.state != Done ::
              C.Line(job.id, job.id == current, job.state, job.command) in C.Listing(jobs, current)
  {
    if jobs != [] {
      var last := |jobs| - 1;
      ListedJobs(jobs[..last], current);
      assert jobs == jobs[..last] + [jobs[last]];
    }
  }

  ghost predicate Ascending(lines: seq<C.Line>) {
    forall i, j | 0 <= i < j < |lines| :: lines[i].id < lines[j].id
  }

  lemma {:induction false} ListingOrder(jobs: seq<Job>, current: int)
    requires forall i, j | 0 <= i < j < |jobs| :: jobs[i].id < jobs[j].id
    ensures Ascending(C.Listing(jobs, current))
  {
    if jobs != [] {
      var last := |jobs| - 1;
      ListingOrder(jobs[..last], current);
      ListedJobs(jobs[..last], current);
      forall line | line in C.Listing(jobs[..last], current)
        ensures line.id < jobs[last].id
      {
        var job :| job in jobs[..last] && line == C.Line(job.id, job.id == current, job.state, job.command);
      }
      var before, lines := C.Listing(jobs[..last], current), C.Listing(jobs, current);
      forall i, j | 0 <= i < j < |lines|
        ensures lines[i].id < lines[j].id
      {
        assert lines[i] == before[i] && before[i] in before;
        if j < |before| {
          assert lines[j] == before[j];
        } else {
          assert lines[j].id == jobs[last].id;
        }
      }
    }
  }

  /** The listing shows each live job once, in the order of ids, with its state and command, and nothing else. */
  lemma {:induction false} ListingInOrder(w: World, current: int)
    requires Reachable(w)
    ensures var lines := C.Listing(w.jobs, current);
            && Ascending(lines)
            && forall line :: line in lines <==>
                 exists job | job in w.jobs ::
                   job.state != Done && line == C.Line(job.id, job.id == current, job.state, job.command)
  {
    var steps :| RunFrom(Init(), steps) == Some(w);
    InvHolds(steps, w);
    ListingOrder(w.jobs, current);
    ListedJobs(w.jobs, current);
  }

  // ---------- the job a command means ----------

  /**
    Without a spec `fg` and `bg` act on the live job with the greatest id, and on none if there is no live job; with a
    number, on the job with that id, and on none if there is no such job.
   */
  lemma {:induction false} ResolvedJob(w: World, spec: Option<int>)
    requires Reachable(w)
    ensures var i := C.Resolved(w.jobs, spec);
            match spec
            case None =>
              if i < |w.jobs|
              then w.jobs[i].state != Done && forall job | job in w.jobs && job.state != Done :: job.id <= w.jobs[i].id
              else forall job | job in w.jobs :: job.state == Done
            case Some(id) =>
              if i < |w.jobs| then w.jobs[i].id == id else forall job | job in w.jobs :: job.id != id
  {
    hide SoundTable, Replays, Agrees, KernelSound, FlagSound, TerminalSound, ModesSound, NewsSound, C.Resolved;
    var steps :| RunFrom(Init(), steps) == Some(w);
    InvHolds(steps, w);
    ResolvedIn(w.jobs, w.nextId, spec);
  }

  lemma {:induction false} ResolvedIn(jobs: seq<Job>, nextId: int, spec: Option<int>)
    requires Numbered(jobs, nextId)
    ensures var i := C.Resolved(jobs, spec);
            match spec
            case None =>
              if i < |jobs|
              then jobs[i].state != Done && forall job | job in jobs && job.state != Done :: job.id <= jobs[i].id
              else forall job | job in jobs :: job.state == Done
            case Some(id) => if i < |jobs| then jobs[i].id == id else forall job | job in jobs :: job.id != id
  {
  }

  // ---------- terminal modes ----------

  lemma {:induction false} SavedKept(w: World, step: Step, id: int)
    requires Enabled(w, step) && !(step.StartForeground? && step.id == id) && w.mode != Foreground(id)
    ensures var w' := Apply(w, step);
            && w'.mode != Foreground(id)
            && (id in w.saved ==> id in w'.saved && w'.saved[id] == w.saved[id])
  {
    hide Notified, Updated, Concluded, Resumed;
    match step
    case Finish => assert w.jobs[IndexOf(w.jobs, w.mode.id)].id == w.mode.id;
    case _ =>
  }

  lemma {:induction false} SavedAlong(w: World, steps: seq<Step>, id: int)
    requires RunFrom(w, steps).Some? && w.mode != Foreground(id) && id in w.saved
    requires forall step | step in steps :: !(step.StartForeground? && step.id == id)
    ensures var v := RunFrom(w, steps).value; v.mode != Foreground(id) && id in v.saved && v.saved[id] == w.saved[id]
  {
    hide Enabled, Apply;
    if steps != [] {
      var last := |steps| - 1;
      SavedAlong(w, steps[..last], id);
      SavedKept(RunFrom(w, steps[..last]).value, steps[last], id);
    }
  }

  /**
    The modes the terminal had when a job stopped in the foreground are the modes it has again when `fg` next hands the
    terminal to that job, whatever happens in between.
   */
  lemma {:induction false} ModesComeBack(w: World, steps: seq<Step>, v: World)
    requires Reachable(w) && Enabled(w, Finish) && ForegroundJob(w).state == Stopped
    requires RunFrom(Apply(w, Finish), steps) == Some(v) && Reachable(v)
    requires forall step | step in steps :: !(step.StartForeground? && step.id == w.mode.id)
    requires Enabled(v, StartForeground(w.mode.id, true))
    ensures Apply(v, StartForeground(w.mode.id, true)).tty == w.tty
  {
    var id := w.mode.id;
    SavedBy(w);
    SavedAlong(Apply(w, Finish), steps, id);
    var run :| RunFrom(Init(), run) == Some(v);
    InvHolds(run, v);
    RestoredBy(v, id);
  }

  lemma {:induction false} SavedBy(w: World)
    requires Enabled(w, Finish) && ForegroundJob(w).state == Stopped
    ensures var w' := Apply(w, Finish);
            w'.mode != Foreground(w.mode.id) && w.mode.id in w'.saved && w'.saved[w.mode.id] == w.tty
  {
    hide Concluded;
    assert w.jobs[IndexOf(w.jobs, w.mode.id)].id == w.mode.id;
  }

  lemma {:induction false} RestoredBy(v: World, id: int)
    requires ModesSound(v) && id in v.saved && Enabled(v, StartForeground(id, true))
    ensures Apply(v, StartForeground(id, true)).tty == v.saved[id]
  {
    hide WokenAll, Pids;
    assert v.jobs[IndexOf(v.jobs, id)] in v.jobs;
  }
}
