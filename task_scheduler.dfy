/** The cron job registry (CronTaskScheduler.ts, ITaskScheduler.ts): jobs by
    unique name in insertion order, each with its definition and whether its
    timer is started. Cron expressions are checked by an uninterpreted
    validator; a timer firing is modelled by `Trigger` (or its two halves),
    with the clock and each job's outcome as inputs. */
module TaskScheduler {
  import opened Results

  /** An instant in milliseconds; the clock is an input. */
  type Time = int

  /** The callback a job runs; the scheduler never looks inside it. */
  type TaskRef = string

  /** `IScheduledTask`. */
  datatype ScheduledTask = ScheduledTask(
    name: string, cronExpression: string, task: TaskRef,
    isRunning: bool, lastRun: Option<Time>, nextRun: Option<Time>, runCount: nat)

  /** A registry entry: the definition, and whether the job's timer is started. */
  datatype Job = Job(definition: ScheduledTask, scheduled: bool)

  datatype SchedulerError = JobExists(name: string) | InvalidCronExpression(expression: string)

  function Message(e: SchedulerError): string {
    match e
    case JobExists(name) => "Job " + name + " already exists"
    case InvalidCronExpression(expression) => "Invalid cron expression: " + expression
  }

  /** The registered names, in insertion order. */
  function Names(jobs: seq<Job>): (ns: seq<string>)
    ensures |ns| == |jobs|
    ensures forall i :: 0 <= i < |jobs| ==> ns[i] == jobs[i].definition.name
  {
    seq(|jobs|, i requires 0 <= i < |jobs| => jobs[i].definition.name)
  }

  /** The definitions, in insertion order. */
  function Definitions(jobs: seq<Job>): (ds: seq<ScheduledTask>)
    ensures |ds| == |jobs|
    ensures forall i :: 0 <= i < |jobs| ==> ds[i] == jobs[i].definition
  {
    seq(|jobs|, i requires 0 <= i < |jobs| => jobs[i].definition)
  }

  /** Where the job called `name` is, `|jobs|` when there is none. */
  function JobIndex(jobs: seq<Job>, name: string): (i: nat)
    ensures i <= |jobs|
    ensures i < |jobs| ==> jobs[i].definition.name == name
    ensures forall j :: 0 <= j < i ==> jobs[j].definition.name != name
  {
    if jobs == [] then 0
    else if jobs[0].definition.name == name then 0
    else 1 + JobIndex(jobs[1..], name)
  }

  /** A name is registered exactly when the lookup finds it. */
  lemma JobIndexFound(jobs: seq<Job>, name: string)
    ensures JobIndex(jobs, name) < |jobs| <==> name in Names(jobs)
  {
    if name in Names(jobs) {
      var j :| 0 <= j < |jobs| && Names(jobs)[j] == name;
      assert jobs[j].definition.name == name;
    }
  }

  ghost predicate UniqueNames(jobs: seq<Job>) {
    forall i, j :: 0 <= i < j < |jobs| ==> jobs[i].definition.name != jobs[j].definition.name
  }

  /** The entry for `name`'s job with its definition changed to `d`. */
  function Redefine(jobs: seq<Job>, i: nat, d: ScheduledTask): (js: seq<Job>)
    requires i < |jobs| && d.name == jobs[i].definition.name
    ensures Names(js) == Names(jobs)
    ensures |js| == |jobs| && js[i].definition == d && js[i].scheduled == jobs[i].scheduled
    ensures forall k :: 0 <= k < |jobs| && k != i ==> js[k] == jobs[k]
  {
    var js := jobs[i := jobs[i].(definition := d)];
    assert forall k :: 0 <= k < |js| ==> Names(js)[k] == Names(jobs)[k];
    js
  }

  class CronTaskScheduler {
    var jobs: seq<Job>
    /** node-cron's `validate`. */
    const validateCron: string -> bool

    ghost predicate Valid()
      reads this
    {
      UniqueNames(jobs)
    }

    constructor (validateCron: string -> bool)
      ensures Valid() && jobs == [] && this.validateCron == validateCron
    {
      jobs := [];
      this.validateCron := validateCron;
    }

    /** `addJob`: a duplicate name or an invalid expression is rejected and
        nothing changes; otherwise the job is registered idle, never run, and
        its timer started. */
    method AddJob(name: string, cronExpression: string, task: TaskRef) returns (r: Result<(), SchedulerError>)
      requires Valid()
      modifies this
      ensures Valid()
      ensures name in Names(old(jobs)) ==> r == Failure(JobExists(name)) && jobs == old(jobs)
      ensures name !in Names(old(jobs)) && !validateCron(cronExpression) ==>
        r == Failure(InvalidCronExpression(cronExpression)) && jobs == old(jobs)
      ensures name !in Names(old(jobs)) && validateCron(cronExpression) ==>
        && r.Success?
        && jobs == old(jobs) + [Job(ScheduledTask(name, cronExpression, task, false, None, None, 0), true)]
    {
      JobIndexFound(jobs, name);
      if JobIndex(jobs, name) < |jobs| {
        return Failure(JobExists(name));
      }
      if !validateCron(cronExpression) {
        return Failure(InvalidCronExpression(cronExpression));
      }
      var job := ScheduledTask(name, cronExpression, task, false, None, None, 0);
      jobs := jobs + [Job(job, true)];
      r := Success(());
    }

    /** `removeJob`: false for an unknown name; otherwise that job alone is
        deleted, the order of the others kept. */
    method RemoveJob(name: string) returns (removed: bool)
      requires Valid()
      modifies this
      ensures Valid()
      ensures removed <==> name in Names(old(jobs))
      ensures !removed ==> jobs == old(jobs)
      ensures removed ==>
        var i := JobIndex(old(jobs), name); jobs == old(jobs)[..i] + old(jobs)[i + 1..]
      ensures name !in Names(jobs)
      ensures forall n :: n != name ==> (n in Names(jobs) <==> n in Names(old(jobs)))
    {
      JobIndexFound(jobs, name);
      var i := JobIndex(jobs, name);
      if i == |jobs| {
        return false;
      }
      RemovedNames(jobs, i, name);
      jobs := jobs[..i] + jobs[i + 1..];
      removed := true;
    }

    /** `getJob`. */
    method GetJob(name: string) returns (d: Option<ScheduledTask>)
      ensures d.Some? <==> name in Names(jobs)
      ensures d.Some? ==> d.value.name == name && d.value == jobs[JobIndex(jobs, name)].definition
    {
      JobIndexFound(jobs, name);
      var i := JobIndex(jobs, name);
      d := if i < |jobs| then Some(jobs[i].definition) else None;
    }

    /** `getAllJobs`: one definition per registered job, in insertion order. */
    method GetAllJobs() returns (defs: seq<ScheduledTask>)
      ensures |defs| == |jobs|
      ensures forall i :: 0 <= i < |jobs| ==> defs[i] == jobs[i].definition
    {
      defs := Definitions(jobs);
    }

    /** `startJob`: false for an unknown name; otherwise the job's timer is
        started. Definitions never change. */
    method StartJob(name: string) returns (found: bool)
      requires Valid()
      modifies this
      ensures Valid() && Definitions(jobs) == Definitions(old(jobs))
      ensures found <==> name in Names(old(jobs))
      ensures !found ==> jobs == old(jobs)
      ensures found ==>
        var i := JobIndex(old(jobs), name); jobs == old(jobs)[i := old(jobs)[i].(scheduled := true)]
    {
      JobIndexFound(jobs, name);
      var i := JobIndex(jobs, name);
      if i == |jobs| {
        return false;
      }
      jobs := jobs[i := jobs[i].(scheduled := true)];
      assert forall k :: 0 <= k < |jobs| ==> Names(jobs)[k] == Names(old(jobs))[k];
      found := true;
    }

    /** `stopJob`: false for an unknown name; otherwise the job's timer is
        stopped. Definitions never change. */
    method StopJob(name: string) returns (found: bool)
      requires Valid()
      modifies this
      ensures Valid() && Definitions(jobs) == Definitions(old(jobs))
      ensures found <==> name in Names(old(jobs))
      ensures !found ==> jobs == old(jobs)
      ensures found ==>
        var i := JobIndex(old(jobs), name); jobs == old(jobs)[i := old(jobs)[i].(scheduled := false)]
    {
      JobIndexFound(jobs, name);
      var i := JobIndex(jobs, name);
      if i == |jobs| {
        return false;
      }
      jobs := jobs[i := jobs[i].(scheduled := false)];
      assert forall k :: 0 <= k < |jobs| ==> Names(jobs)[k] == Names(old(jobs))[k];
      found := true;
    }

    /** The start of `wrappedTask` at `now`: nothing happens for a missing job
        or one that is still running; otherwise the job is marked running and
        its last run stamped. */
    method BeginRun(name: string, now: Time) returns (started: bool)
      requires Valid()
      modifies this
      ensures Valid() && Names(jobs) == Names(old(jobs))
      ensures var i := JobIndex(old(jobs), name);
        started <==> i < |old(jobs)| && !old(jobs)[i].definition.isRunning
      ensures !started ==> jobs == old(jobs)
      ensures started ==>
        var i := JobIndex(old(jobs), name);
        var d := old(jobs)[i].definition;
        jobs == Redefine(old(jobs), i, d.(isRunning := true, lastRun := Some(now)))
    {
      var i := JobIndex(jobs, name);
      if i == |jobs| || jobs[i].definition.isRunning {
        return false;
      }
      var d := jobs[i].definition;
      jobs := Redefine(jobs, i, d.(isRunning := true, lastRun := Some(now)));
      started := true;
    }

    /** The end of `wrappedTask`: the job is no longer running whatever the
        task's outcome; a task that succeeded counts one more run and records
        the next run time. */
    method FinishRun(name: string, succeeded: bool, nextRun: Option<Time>)
      requires Valid()
      modifies this
      ensures Valid() && Names(jobs) == Names(old(jobs))
      ensures var i := JobIndex(old(jobs), name);
        && (i == |old(jobs)| ==> jobs == old(jobs))
        && (i < |old(jobs)| ==>
              var d := old(jobs)[i].definition;
              jobs == Redefine(old(jobs), i,
                        if succeeded then d.(isRunning := false, runCount := d.runCount + 1, nextRun := nextRun)
                        else d.(isRunning := false)))
    {
      var i := JobIndex(jobs, name);
      if i == |jobs| {
        return;
      }
      var d := jobs[i].definition;
      if succeeded {
        d := d.(runCount := d.runCount + 1, nextRun := nextRun);
      }
      jobs := Redefine(jobs, i, d.(isRunning := false));
    }

    /** One run of `wrappedTask` whose task completes, or fails, before
        anything else happens. */
    method Trigger(name: string, now: Time, succeeded: bool, nextRun: Option<Time>) returns (ran: bool)
      requires Valid()
      modifies this
      ensures Valid() && Names(jobs) == Names(old(jobs))
      ensures var i := JobIndex(old(jobs), name);
        ran <==> i < |old(jobs)| && !old(jobs)[i].definition.isRunning
      ensures !ran ==> jobs == old(jobs)
      ensures ran ==>
        var i := JobIndex(old(jobs), name);
        var d := old(jobs)[i].definition;
        jobs == Redefine(old(jobs), i,
                  if succeeded then d.(isRunning := false, lastRun := Some(now), runCount := d.runCount + 1, nextRun := nextRun)
                  else d.(isRunning := false, lastRun := Some(now)))
    {
      ghost var i := JobIndex(jobs, name);
      ghost var d := if i < |jobs| then jobs[i].definition else ScheduledTask(name, "", "", false, None, None, 0);
      ghost var after := if succeeded then d.(isRunning := false, lastRun := Some(now), runCount := d.runCount + 1, nextRun := nextRun)
                         else d.(isRunning := false, lastRun := Some(now));
      ran := BeginRun(name, now);
      if ran {
        ghost var begun := d.(isRunning := true, lastRun := Some(now));
        ghost var mid := jobs;
        assert mid == Redefine(old(jobs), i, begun);
        assert mid[i].definition == begun;
        JobIndexSameNames(old(jobs), mid, name);
        assert after == if succeeded then begun.(isRunning := false, runCount := begun.runCount + 1, nextRun := nextRun)
                        else begun.(isRunning := false);
        FinishRun(name, succeeded, nextRun);
        assert jobs == Redefine(mid, i, after);
        RedefineTwice(old(jobs), i, begun, after);
      }
    }

    /** The job's timer firing at `now`: a stopped timer does not fire, a
        started one runs `wrappedTask`. */
    method Tick(name: string, now: Time, succeeded: bool, nextRun: Option<Time>) returns (ran: bool)
      requires Valid()
      modifies this
      ensures Valid() && Names(jobs) == Names(old(jobs))
      ensures var i := JobIndex(old(jobs), name);
        ran <==> i < |old(jobs)| && old(jobs)[i].scheduled && !old(jobs)[i].definition.isRunning
      ensures !ran ==> jobs == old(jobs)
      ensures ran ==>
        var i := JobIndex(old(jobs), name);
        var d := old(jobs)[i].definition;
        jobs == Redefine(old(jobs), i,
                  if succeeded then d.(isRunning := false, lastRun := Some(now), runCount := d.runCount + 1, nextRun := nextRun)
                  else d.(isRunning := false, lastRun := Some(now)))
    {
      var i := JobIndex(jobs, name);
      if i == |jobs| || !jobs[i].scheduled {
        return false;
      }
      ran := Trigger(name, now, succeeded, nextRun);
    }
  }

  /** Deleting the job at `i`, called `name`, keeps names unique, drops
      `name` and keeps every other name. */
  lemma RemovedNames(jobs: seq<Job>, i: nat, name: string)
    requires UniqueNames(jobs) && i < |jobs| && jobs[i].definition.name == name
    ensures var rest := jobs[..i] + jobs[i + 1..];
      && UniqueNames(rest)
      && name !in Names(rest)
      && forall n :: n != name ==> (n in Names(rest) <==> n in Names(jobs))
  {
    var rest := jobs[..i] + jobs[i + 1..];
    assert forall k :: 0 <= k < |rest| ==> rest[k] == jobs[if k < i then k else k + 1];
    forall n | n in Names(rest)
      ensures n in Names(jobs) && n != name
    {
      var k :| 0 <= k < |rest| && Names(rest)[k] == n;
      assert Names(jobs)[if k < i then k else k + 1] == n;
    }
    forall n | n in Names(jobs) && n != name
      ensures n in Names(rest)
    {
      var k :| 0 <= k < |jobs| && Names(jobs)[k] == n;
      assert Names(rest)[if k < i then k else k - 1] == n;
    }
  }

  /** Redefining a job twice keeps only the second definition. */
  lemma RedefineTwice(jobs: seq<Job>, i: nat, d1: ScheduledTask, d2: ScheduledTask)
    requires i < |jobs| && d1.name == jobs[i].definition.name && d2.name == d1.name
    ensures Redefine(Redefine(jobs, i, d1), i, d2) == Redefine(jobs, i, d2)
  {
    var a, b := Redefine(Redefine(jobs, i, d1), i, d2), Redefine(jobs, i, d2);
    assert forall k :: 0 <= k < |a| ==> a[k] == b[k];
  }

  /** The lookup only depends on the names. */
  lemma JobIndexSameNames(a: seq<Job>, b: seq<Job>, name: string)
    requires Names(a) == Names(b)
    ensures JobIndex(a, name) == JobIndex(b, name)
  {
    var i, j := JobIndex(a, name), JobIndex(b, name);
    assert forall k :: 0 <= k < |a| ==> a[k].definition.name == b[k].definition.name by {
      forall k | 0 <= k < |a|
        ensures a[k].definition.name == b[k].definition.name
      {
        assert Names(a)[k] == Names(b)[k];
      }
    }
  }
}
