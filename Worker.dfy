/**
 * The install worker: `_process_job` drives one job from `queued` through
 * `running` to `finished` or `failed`, writing the record in the job store
 * and publishing events, and `_run_loop` drains the queue one job at a time.
 *
 * The job's execution is described by a plan: the sequence of atomic,
 * state-changing steps the code performs (a store update, a log append,
 * a broadcast, the process spawn). A cancellation is a cut point in that
 * plan: `Some(c)` means the `CancelledError` arrives at the first await
 * after `c` steps have completed.
 */
module Worker {
  import opened Types
  import opened JobStore

  /** One atomic state-changing step of `_process_job`. */
  datatype Step =
    | Update(fields: seq<Assign>)   // update_job_status(job_id, **fields)
    | AppendLog(line: string)       // get_job, then update_job_status(log=old log + [line])
    | Publish(event: Event)         // ws.broadcast(event)
    | Spawn                         // create_subprocess_shell: changes neither store nor events

  /** The table after one step on job `id`. */
  function ApplyStep(jobs: map<JobId, Job>, id: JobId, s: Step): map<JobId, Job>
  {
    match s
    case Update(fs) => Updated(jobs, id, fs)
    case AppendLog(line) => Updated(jobs, id, [SetLog((if id in jobs then jobs[id].log else []) + [line])])
    case Publish(_) => jobs
    case Spawn => jobs
  }

  /** The table after all of `steps`, in order. */
  function ApplySteps(jobs: map<JobId, Job>, id: JobId, steps: seq<Step>): map<JobId, Job>
    decreases |steps|
  {
    if steps == [] then jobs else ApplySteps(ApplyStep(jobs, id, steps[0]), id, steps[1..])
  }

  /** The event a step broadcasts, if any. */
  function EventOf(s: Step): seq<Event>
  {
    if s.Publish? then [s.event] else []
  }

  /** The line a step appends to the log, if any. */
  function LineOf(s: Step): seq<string>
  {
    if s.AppendLog? then [s.line] else []
  }

  /** The events broadcast by `steps`, in order. */
  function Published(steps: seq<Step>): seq<Event>
    decreases |steps|
  {
    if steps == [] then [] else EventOf(steps[0]) + Published(steps[1..])
  }

  /** The lines appended to the log by `steps`, in order. */
  function Logged(steps: seq<Step>): seq<string>
    decreases |steps|
  {
    if steps == [] then [] else LineOf(steps[0]) + Logged(steps[1..])
  }

  /** No step writes a status field: the steps only append and publish. */
  predicate NoUpdates(steps: seq<Step>)
  {
    forall k :: 0 <= k < |steps| ==> !steps[k].Update?
  }

  /** Every event the steps publish is a `stdout` or `progress` event of job `id`. */
  predicate OwnOutput(id: JobId, steps: seq<Step>)
  {
    forall k :: 0 <= k < |steps| && steps[k].Publish? ==>
      (steps[k].event.Stdout? || steps[k].event.Progress?) && steps[k].event.jobId == id
  }

  lemma OutputConcat(id: JobId, a: seq<Step>, b: seq<Step>)
    requires NoUpdates(a) && NoUpdates(b) && OwnOutput(id, a) && OwnOutput(id, b)
    ensures NoUpdates(a + b) && OwnOutput(id, a + b)
  {
    forall k | |a| <= k < |a + b| ensures (a + b)[k] == b[k - |a|] {
    }
  }

  lemma NoUpdatesTail(steps: seq<Step>)
    requires NoUpdates(steps) && steps != []
    ensures !steps[0].Update? && NoUpdates(steps[1..])
  {
    forall i | 0 <= i < |steps[1..]| ensures steps[1..][i] == steps[i + 1] {
    }
  }

  /** A single step, on its own. */
  lemma Single(jobs: map<JobId, Job>, id: JobId, s: Step)
    ensures ApplySteps(jobs, id, [s]) == ApplyStep(jobs, id, s)
    ensures Published([s]) == EventOf(s)
    ensures Logged([s]) == LineOf(s)
  {
    assert [s][1..] == [];
  }

  lemma {:induction false} ApplyConcat(jobs: map<JobId, Job>, id: JobId, a: seq<Step>, b: seq<Step>)
    ensures ApplySteps(jobs, id, a + b) == ApplySteps(ApplySteps(jobs, id, a), id, b)
    decreases |a|
  {
    if a != [] {
      assert (a + b)[0] == a[0] && (a + b)[1..] == a[1..] + b;
      ApplyConcat(ApplyStep(jobs, id, a[0]), id, a[1..], b);
    } else {
      assert a + b == b;
    }
  }

  lemma {:induction false} PublishedConcat(a: seq<Step>, b: seq<Step>)
    ensures Published(a + b) == Published(a) + Published(b)
    decreases |a|
  {
    if a != [] {
      assert (a + b)[0] == a[0] && (a + b)[1..] == a[1..] + b;
      PublishedConcat(a[1..], b);
    } else {
      assert a + b == b;
    }
  }

  lemma {:induction false} LoggedConcat(a: seq<Step>, b: seq<Step>)
    ensures Logged(a + b) == Logged(a) + Logged(b)
    decreases |a|
  {
    if a != [] {
      assert (a + b)[0] == a[0] && (a + b)[1..] == a[1..] + b;
      LoggedConcat(a[1..], b);
    } else {
      assert a + b == b;
    }
  }

  /** Taking one more step extends the table and the trace by that step alone. */
  lemma StepTaken(jobs: map<JobId, Job>, id: JobId, steps: seq<Step>, s: Step)
    ensures ApplySteps(jobs, id, steps + [s]) == ApplyStep(ApplySteps(jobs, id, steps), id, s)
    ensures Published(steps + [s]) == Published(steps) + EventOf(s)
  {
    ApplyConcat(jobs, id, steps, [s]);
    PublishedConcat(steps, [s]);
    Single(ApplySteps(jobs, id, steps), id, s);
  }

  /**
   * Whatever the steps, the worker touches only the record of its own
   * job, removes nothing, and never changes an id, a package or a
   * creation time.
   */
  lemma {:induction false} StepsKeepIdentity(jobs: map<JobId, Job>, id: JobId, steps: seq<Step>)
    ensures ApplySteps(jobs, id, steps).Keys == jobs.Keys
    ensures forall k :: k in jobs && k != id ==> ApplySteps(jobs, id, steps)[k] == jobs[k]
    ensures forall k :: k in jobs ==>
      && ApplySteps(jobs, id, steps)[k].jobId == jobs[k].jobId
      && ApplySteps(jobs, id, steps)[k].package == jobs[k].package
      && ApplySteps(jobs, id, steps)[k].createdAt == jobs[k].createdAt
    decreases |steps|
  {
    if steps != [] {
      StepsKeepIdentity(ApplyStep(jobs, id, steps[0]), id, steps[1..]);
    }
  }

  /** The steps of a run keep the job store consistent. */
  lemma StepsKeepConsistent(jobs: map<JobId, Job>, id: JobId, steps: seq<Step>,
                            order: seq<JobId>, queue: seq<JobId>, taken: nat)
    requires Consistent(jobs, order, queue, taken)
    ensures Consistent(ApplySteps(jobs, id, steps), order, queue, taken)
  {
    StepsKeepIdentity(jobs, id, steps);
  }

  /** The effect of the steps on job `id` depends on that record alone. */
  lemma {:induction false} StepsLocal(a: map<JobId, Job>, b: map<JobId, Job>, id: JobId, steps: seq<Step>)
    requires id in a && id in b && a[id] == b[id]
    ensures id in ApplySteps(a, id, steps) && id in ApplySteps(b, id, steps)
    ensures ApplySteps(a, id, steps)[id] == ApplySteps(b, id, steps)[id]
    decreases |steps|
  {
    if steps != [] {
      StepsLocal(ApplyStep(a, id, steps[0]), ApplyStep(b, id, steps[0]), id, steps[1..]);
    } 
  }

  /** One step that is not an update touches at most the log. */
  lemma OutputStep(jobs: map<JobId, Job>, id: JobId, s: Step)
    requires !s.Update?
    ensures ApplyStep(jobs, id, s) ==
      if id in jobs then jobs[id := jobs[id].(log := jobs[id].log + LineOf(s))] else jobs
  {
    if id in jobs {
      if s.AppendLog? {
        LogAssigned(jobs[id], jobs[id].log + [s.line]);
      } else {
        assert jobs[id].log + [] == jobs[id].log;
        assert jobs[id].(log := jobs[id].log) == jobs[id];
      }
    }
  }

  /** Steps that only append and publish leave everything but the log alone. */
  lemma {:induction false} OutputStepsOnlyLog(jobs: map<JobId, Job>, id: JobId, steps: seq<Step>)
    requires NoUpdates(steps)
    ensures ApplySteps(jobs, id, steps) ==
      if id in jobs then jobs[id := jobs[id].(log := jobs[id].log + Logged(steps))] else jobs
    decreases |steps|
  {
    if steps != [] {
      var next := ApplyStep(jobs, id, steps[0]);
      var tail := steps[1..];
      NoUpdatesTail(steps);
      OutputStep(jobs, id, steps[0]);
      OutputStepsOnlyLog(next, id, tail);
      assert Logged(steps) == LineOf(steps[0]) + Logged(tail);
      if id in jobs {
        var j := jobs[id];
        assert next[id] == j.(log := j.log + LineOf(steps[0]));
        Assoc(j.log, LineOf(steps[0]), Logged(tail));
      }
    } else if id in jobs {
      assert jobs[id].log + [] == jobs[id].log;
      assert jobs[id].(log := jobs[id].log) == jobs[id];
    }
  }

  // ---------------------------------------------------------------------
  // The plans of the two execution backends

  /** The decimal digits of `n`, as an f-string prints it. */
  function NatToString(n: nat): string
    decreases n
  {
    var d := ['0' + ((n % 10) as char)];
    if n < 10 then d else NatToString(n / 10) + d
  }

  /** The number of lines the simulated installer prints. */
  const SimSteps: nat := 5

  /** The simulated line `k` (counting from 1). */
  function SimLine(package: string, k: nat): string
  {
    "Simulated output for " + package + " step " + NatToString(k)
  }

  /** The simulated lines from number `i + 1` on. */
  function SimLinesFrom(package: string, i: nat): seq<string>
    decreases SimSteps - i
  {
    if i >= SimSteps then [] else [SimLine(package, i + 1)] + SimLinesFrom(package, i + 1)
  }

  function RunningFields(t: nat): seq<Assign>
  {
    [SetStatus(Running), SetStartedAt(t)]
  }

  function DoneFields(status: Status, t: nat, rc: int): seq<Assign>
  {
    [SetStatus(status), SetFinishedAt(t), SetExitCode(rc)]
  }

  lemma RunningAssigned(j: Job, t: nat)
    ensures Assigned(j, RunningFields(t)) == j.(status := Running, startedAt := Some(t))
  {
    var fs := RunningFields(t);
    assert fs[..1] == [SetStatus(Running)] && fs[..1][..0] == [];
    assert Assigned(j, fs[..1]) == Set(Assigned(j, []), SetStatus(Running));
  }

  lemma DoneAssigned(j: Job, status: Status, t: nat, rc: int)
    ensures Assigned(j, DoneFields(status, t, rc)) == j.(status := status, finishedAt := Some(t), exitCode := Some(rc))
  {
    var fs := DoneFields(status, t, rc);
    var f2 := [SetStatus(status), SetFinishedAt(t)];
    var f1 := [SetStatus(status)];
    assert fs[..2] == f2 && f2[..1] == f1 && f1[..0] == [];
    assert Assigned(j, f1) == Set(Assigned(j, []), SetStatus(status));
    assert Assigned(j, f2) == Set(Assigned(j, f1), SetFinishedAt(t));
  }

  lemma LogAssigned(j: Job, log: seq<string>)
    ensures Assigned(j, [SetLog(log)]) == j.(log := log)
  {
    assert [SetLog(log)][..0] == [];
  }

  /** Both backends start by marking the job running and announcing it. */
  function Header(id: JobId, package: string, t0: nat): seq<Step>
  {
    [Update(RunningFields(t0)), Publish(JobStarted(id, package))]
  }

  /** Two steps in a row. */
  lemma ApplyPair(jobs: map<JobId, Job>, id: JobId, s1: Step, s2: Step)
    ensures ApplySteps(jobs, id, [s1, s2]) == ApplyStep(ApplyStep(jobs, id, s1), id, s2)
    ensures Published([s1, s2]) == EventOf(s1) + EventOf(s2)
    ensures Logged([s1, s2]) == LineOf(s1) + LineOf(s2)
  {
    assert [s1, s2] == [s1] + [s2];
    ApplyConcat(jobs, id, [s1], [s2]);
    PublishedConcat([s1], [s2]);
    LoggedConcat([s1], [s2]);
    Single(jobs, id, s1);
    Single(ApplyStep(jobs, id, s1), id, s2);
  }

  lemma HeaderApplied(jobs: map<JobId, Job>, id: JobId, package: string, t0: nat)
    requires id in jobs
    ensures ApplySteps(jobs, id, Header(id, package, t0)) ==
      jobs[id := jobs[id].(status := Running, startedAt := Some(t0))]
    ensures ApplySteps(jobs, id, Header(id, package, t0) + [Spawn]) ==
      jobs[id := jobs[id].(status := Running, startedAt := Some(t0))]
  {
    var h := Header(id, package, t0);
    ApplyPair(jobs, id, h[0], h[1]);
    RunningAssigned(jobs[id], t0);
    ApplyConcat(jobs, id, h, [Spawn]);
    Single(ApplySteps(jobs, id, h), id, Spawn);
  }

  lemma HeaderPublished(id: JobId, package: string, t0: nat)
    ensures Published(Header(id, package, t0)) == [JobStarted(id, package)]
    ensures Published(Header(id, package, t0) + [Spawn]) == [JobStarted(id, package)]
  {
    var h := Header(id, package, t0);
    ApplyPair(map[], id, h[0], h[1]);
    PublishedConcat(h, [Spawn]);
    Single(map[], id, Spawn);
  }

  /** A final update followed by the `job_finished` broadcast. */
  lemma FinishApplied(jobs: map<JobId, Job>, id: JobId, status: Status, t: nat, rc: int, success: bool)
    ensures var fin := [Update(DoneFields(status, t, rc)), Publish(JobFinished(id, success, rc))];
      && ApplySteps(jobs, id, fin) == Updated(jobs, id, DoneFields(status, t, rc))
      && Published(fin) == [JobFinished(id, success, rc)]
    ensures id in jobs ==>
      ApplySteps(jobs, id, [Update(DoneFields(status, t, rc)), Publish(JobFinished(id, success, rc))]) ==
      jobs[id := jobs[id].(status := status, finishedAt := Some(t), exitCode := Some(rc))]
  {
    var fin := [Update(DoneFields(status, t, rc)), Publish(JobFinished(id, success, rc))];
    ApplyPair(jobs, id, fin[0], fin[1]);
    if id in jobs {
      DoneAssigned(jobs[id], status, t, rc);
    }
  }

  /** Iterations `i..4` of the `for i in range(5)` loop. */
  function SimBodyFrom(id: JobId, package: string, i: nat): seq<Step>
    decreases SimSteps - i
  {
    if i >= SimSteps then [] else SimBlock(id, package, i) + SimBodyFrom(id, package, i + 1)
  }

  /** The body from iteration `i` is that iteration's block, then the rest. */
  lemma SimBodyStep(id: JobId, package: string, i: nat)
    requires i < SimSteps
    ensures SimBodyFrom(id, package, i) == SimBlock(id, package, i) + SimBodyFrom(id, package, i + 1)
  {
  }

  /** Iteration `i` of the simulated loop: log the line, publish it, publish the progress. */
  function SimBlock(id: JobId, package: string, i: nat): seq<Step>
  {
    var line := SimLine(package, i + 1);
    [AppendLog(line), Publish(Stdout(id, line)), Publish(Progress(id, (i + 1) * 20))]
  }

  function SimFooter(id: JobId, t1: nat): seq<Step>
  {
    [Update(DoneFields(Finished, t1, 0)), Publish(JobFinished(id, true, 0))]
  }

  /** The simulated path of `_process_job`. */
  function SimPlan(id: JobId, package: string, t0: nat, t1: nat): seq<Step>
  {
    Header(id, package, t0) + SimBodyFrom(id, package, 0) + SimFooter(id, t1)
  }

  /** What the external process gives: its `readline` results and its exit code. */
  datatype Output = Output(readlines: seq<string>, rc: int)

  /** The index of the first empty read at or after `k` (running out counts as EOF). */
  function FirstEmptyFrom(readlines: seq<string>, k: nat): (r: nat)
    requires k <= |readlines|
    ensures k <= r <= |readlines|
    decreases |readlines| - k
  {
    if k == |readlines| || readlines[k] == "" then k else FirstEmptyFrom(readlines, k + 1)
  }

  /** `rstrip("\n")`: every trailing newline removed. */
  function Strip(s: string): (r: string)
    ensures r <= s && (r == [] || r[|r| - 1] != '\n')
    ensures forall i :: |r| <= i < |s| ==> s[i] == '\n'
    decreases |s|
  {
    if s != [] && s[|s| - 1] == '\n' then Strip(s[..|s| - 1]) else s
  }

  /** The lines the real path readlines before the first empty read, newline-stripped. */
  function Decoded(readlines: seq<string>): seq<string>
  {
    var n := FirstEmptyFrom(readlines, 0);
    seq(n, i requires 0 <= i < n => Strip(readlines[i]))
  }

  /** One iteration of the `while True: readline` loop per line. */
  function RealBody(id: JobId, lines: seq<string>): seq<Step>
    decreases |lines|
  {
    if lines == [] then [] else LineSteps(id, lines[0]) + RealBody(id, lines[1..])
  }

  /** One line read from the installer: append it to the log, then publish it. */
  function LineSteps(id: JobId, line: string): seq<Step>
  {
    [AppendLog(line), Publish(Stdout(id, line))]
  }

  /** The steps for two runs of output lines are the steps for the first then the second. */
  lemma {:induction false} RealBodyConcat(id: JobId, a: seq<string>, b: seq<string>)
    ensures RealBody(id, a + b) == RealBody(id, a) + RealBody(id, b)
    decreases |a|
  {
    if a == [] {
      assert a + b == b;
    } else {
      assert (a + b)[0] == a[0] && (a + b)[1..] == a[1..] + b;
      RealBodyConcat(id, a[1..], b);
    }
  }

  /** One more line read: its two steps follow the steps of the lines before it. */
  lemma RealBodySnoc(id: JobId, lines: seq<string>, k: nat)
    requires k < |lines|
    ensures RealBody(id, lines[..k + 1]) == RealBody(id, lines[..k]) + [AppendLog(lines[k]), Publish(Stdout(id, lines[k]))]
  {
    assert lines[..k + 1] == lines[..k] + [lines[k]];
    RealBodyConcat(id, lines[..k], [lines[k]]);
    assert [lines[k]][1..] == [];
  }

  function RealFooter(id: JobId, rc: int, t1: nat): seq<Step>
  {
    [Update(DoneFields(if rc == 0 then Finished else Failed, t1, rc)), Publish(JobFinished(id, rc == 0, rc))]
  }

  /** The real path of `_process_job`; the `try` block starts after `Spawn`. */
  function RealPlan(id: JobId, package: string, out: Output, t0: nat, t1: nat): seq<Step>
  {
    Header(id, package, t0) + [Spawn] + RealBody(id, Decoded(out.readlines)) + RealFooter(id, out.rc, t1)
  }

  /** A cut at or after this many steps lies inside the real path's `try`. */
  const TryStart: nat := 3

  /** The `except asyncio.CancelledError` handler. */
  function CancelHandler(id: JobId, t1: nat): seq<Step>
  {
    [Update(DoneFields(Failed, t1, -1)), Publish(JobFinished(id, false, -1))]
  }

  /**
   * Everything one call of `_process_job` is given: the process output
   * (ignored when simulating), the cancellation cut point, and the clock
   * readings for `started_at` and `finished_at`.
   */
  datatype Run = Run(output: Output, cancel: Option<nat>, startedAt: nat, finishedAt: nat)

  function Plan(simulate: bool, id: JobId, package: string, run: Run): seq<Step>
  {
    if simulate then SimPlan(id, package, run.startedAt, run.finishedAt)
    else RealPlan(id, package, run.output, run.startedAt, run.finishedAt)
  }

  /** The cancellation arrives before the plan ends and no handler catches it. */
  predicate Escapes(simulate: bool, id: JobId, package: string, run: Run)
  {
    run.cancel.Some? && run.cancel.value < |Plan(simulate, id, package, run)|
    && (simulate || run.cancel.value < TryStart)
  }

  /** The steps one call of `_process_job` actually performs. */
  function Executed(simulate: bool, id: JobId, package: string, run: Run): seq<Step>
  {
    var plan := Plan(simulate, id, package, run);
    if run.cancel.None? || run.cancel.value >= |plan| then plan
    else if !simulate && run.cancel.value >= TryStart then plan[..run.cancel.value] + CancelHandler(id, run.finishedAt)
    else plan[..run.cancel.value]
  }

  // ---------------------------------------------------------------------
  // What the plans do

  /** The three steps of one simulated iteration. */
  lemma SimBlockOutput(id: JobId, line: string, percent: int)
    ensures var block := [AppendLog(line), Publish(Stdout(id, line)), Publish(Progress(id, percent))];
      Logged(block) == [line] && Published(block) == [Stdout(id, line), Progress(id, percent)]
  {
    var block := [AppendLog(line), Publish(Stdout(id, line)), Publish(Progress(id, percent))];
    assert block == [block[0]] + [block[1], block[2]];
    PublishedConcat([block[0]], [block[1], block[2]]);
    LoggedConcat([block[0]], [block[1], block[2]]);
    Single(map[], id, block[0]);
    ApplyPair(map[], id, block[1], block[2]);
  }

  /** The simulated body has three steps per remaining iteration and only appends and publishes. */
  lemma {:induction false} SimBodyShape(id: JobId, package: string, i: nat)
    requires i <= SimSteps
    ensures |SimBodyFrom(id, package, i)| == 3 * (SimSteps - i)
    ensures NoUpdates(SimBodyFrom(id, package, i)) && OwnOutput(id, SimBodyFrom(id, package, i))
    decreases SimSteps - i
  {
    if i < SimSteps {
      var block := SimBlock(id, package, i);
      SimBodyShape(id, package, i + 1);
      SimBodyStep(id, package, i);
      OutputConcat(id, block, SimBodyFrom(id, package, i + 1));
    }
  }

  /** The simulated body appends exactly the simulated lines. */
  lemma {:induction false} SimBodyLogged(id: JobId, package: string, i: nat)
    ensures Logged(SimBodyFrom(id, package, i)) == SimLinesFrom(package, i)
    decreases SimSteps - i
  {
    if i < SimSteps {
      var line := SimLine(package, i + 1);
      var block := SimBlock(id, package, i);
      assert block == [AppendLog(line), Publish(Stdout(id, line)), Publish(Progress(id, (i + 1) * 20))];
      SimBodyLogged(id, package, i + 1);
      SimBlockOutput(id, line, (i + 1) * 20);
      SimBodyStep(id, package, i);
      LoggedConcat(block, SimBodyFrom(id, package, i + 1));
    }
  }

  /** The events of the simulated loop: a `stdout` then a `progress` per step. */
  function SimEventsFrom(id: JobId, package: string, i: nat): seq<Event>
    decreases SimSteps - i
  {
    if i >= SimSteps then []
    else [Stdout(id, SimLine(package, i + 1)), Progress(id, (i + 1) * 20)] + SimEventsFrom(id, package, i + 1)
  }

  lemma {:induction false} SimBodyPublished(id: JobId, package: string, i: nat)
    ensures Published(SimBodyFrom(id, package, i)) == SimEventsFrom(id, package, i)
    decreases SimSteps - i
  {
    if i < SimSteps {
      var line := SimLine(package, i + 1);
      var block := SimBlock(id, package, i);
      assert block == [AppendLog(line), Publish(Stdout(id, line)), Publish(Progress(id, (i + 1) * 20))];
      SimBodyPublished(id, package, i + 1);
      SimBlockOutput(id, line, (i + 1) * 20);
      PublishedConcat(block, SimBodyFrom(id, package, i + 1));
    }
  }

  /** The simulated installer prints exactly lines 1 to 5, in order. */
  lemma SimLinesAre(package: string)
    ensures SimLinesFrom(package, 0) ==
      [SimLine(package, 1), SimLine(package, 2), SimLine(package, 3), SimLine(package, 4), SimLine(package, 5)]
  {
  }

  /**
   * A run that marks the job running, then only appends and publishes,
   * then writes a final status: the record ends with the final status,
   * both timestamps, the exit code and the appended lines.
   */
  lemma {:induction false} RunApplied(jobs: map<JobId, Job>, id: JobId, pre: seq<Step>, body: seq<Step>,
                                      t0: nat, status: Status, t1: nat, rc: int, success: bool)
    requires id in jobs
    requires ApplySteps(jobs, id, pre) == jobs[id := jobs[id].(status := Running, startedAt := Some(t0))]
    requires NoUpdates(body)
    ensures ApplySteps(jobs, id, pre + body + [Update(DoneFields(status, t1, rc)), Publish(JobFinished(id, success, rc))]) ==
      jobs[id := jobs[id].(status := status, startedAt := Some(t0), finishedAt := Some(t1),
                           exitCode := Some(rc), log := jobs[id].log + Logged(body))]
  {
    var fin := [Update(DoneFields(status, t1, rc)), Publish(JobFinished(id, success, rc))];
    ApplyConcat(jobs, id, pre + body, fin);
    BodyApplied(jobs, id, pre, body, t0);
    var j0 := jobs[id];
    FinishApplied(jobs[id := j0.(status := Running, startedAt := Some(t0), log := j0.log + Logged(body))],
                  id, status, t1, rc, success);
  }

  /** After the start and the output, the record is running with the lines appended. */
  lemma BodyApplied(jobs: map<JobId, Job>, id: JobId, pre: seq<Step>, body: seq<Step>, t0: nat)
    requires id in jobs
    requires ApplySteps(jobs, id, pre) == jobs[id := jobs[id].(status := Running, startedAt := Some(t0))]
    requires NoUpdates(body)
    ensures ApplySteps(jobs, id, pre + body) ==
      jobs[id := jobs[id].(status := Running, startedAt := Some(t0), log := jobs[id].log + Logged(body))]
  {
    ApplyConcat(jobs, id, pre, body);
    OutputStepsOnlyLog(ApplySteps(jobs, id, pre), id, body);
  }

  /**
   * An uncancelled simulated run ends `finished` with exit code 0 and the
   * five simulated lines appended to the log; no other record changes.
   */
  lemma SimulatedCompletes(jobs: map<JobId, Job>, id: JobId, package: string, t0: nat, t1: nat)
    requires id in jobs
    ensures ApplySteps(jobs, id, SimPlan(id, package, t0, t1)) ==
      jobs[id := jobs[id].(status := Finished, startedAt := Some(t0), finishedAt := Some(t1),
                           exitCode := Some(0), log := jobs[id].log + SimLinesFrom(package, 0))]
  {
    HeaderApplied(jobs, id, package, t0);
    SimBodyShape(id, package, 0);
    SimBodyLogged(id, package, 0);
    RunApplied(jobs, id, Header(id, package, t0), SimBodyFrom(id, package, 0), t0, Finished, t1, 0, true);
  }

  /** The events of the five loop iterations, written out. */
  lemma SimEventsAre(id: JobId, package: string)
    ensures SimEventsFrom(id, package, 0) ==
      [Stdout(id, SimLine(package, 1)), Progress(id, 20),
       Stdout(id, SimLine(package, 2)), Progress(id, 40),
       Stdout(id, SimLine(package, 3)), Progress(id, 60),
       Stdout(id, SimLine(package, 4)), Progress(id, 80),
       Stdout(id, SimLine(package, 5)), Progress(id, 100)]
  {
    assert SimEventsFrom(id, package, 5) == [];
    assert SimEventsFrom(id, package, 4) == [Stdout(id, SimLine(package, 5)), Progress(id, 100)];
  }

  /** The simulated plan publishes `job_started`, the loop's events, then `job_finished`. */
  lemma SimPublished(id: JobId, package: string, t0: nat, t1: nat)
    ensures Published(SimPlan(id, package, t0, t1)) ==
      [JobStarted(id, package)] + SimEventsFrom(id, package, 0) + [JobFinished(id, true, 0)]
  {
    var h := Header(id, package, t0);
    var b := SimBodyFrom(id, package, 0);
    var f := SimFooter(id, t1);
    PublishedConcat(h + b, f);
    PublishedConcat(h, b);
    HeaderPublished(id, package, t0);
    FinishApplied(map[], id, Finished, t1, 0, true);
    SimBodyPublished(id, package, 0);
  }

  /**
   * The simulated trace: `job_started`, five `stdout`/`progress` pairs
   * with percents 20, 40, 60, 80, 100, then
   * `job_finished{success: true, exit_code: 0}` — twelve events.
   */
  lemma SimulatedTrace(id: JobId, package: string, t0: nat, t1: nat)
    ensures Published(SimPlan(id, package, t0, t1)) ==
      [JobStarted(id, package),
       Stdout(id, SimLine(package, 1)), Progress(id, 20),
       Stdout(id, SimLine(package, 2)), Progress(id, 40),
       Stdout(id, SimLine(package, 3)), Progress(id, 60),
       Stdout(id, SimLine(package, 4)), Progress(id, 80),
       Stdout(id, SimLine(package, 5)), Progress(id, 100),
       JobFinished(id, true, 0)]
  {
    SimPublished(id, package, t0, t1);
    SimEventsAre(id, package);
  }

  /** The percents of the `progress` events of a trace, in order. */
  function Percents(events: seq<Event>): seq<int>
    decreases |events|
  {
    if events == [] then []
    else (if events[0].Progress? then [events[0].percent] else []) + Percents(events[1..])
  }

  /** The simulated progress percents rise strictly and end at 100. */
  lemma SimulatedProgress(id: JobId, package: string, t0: nat, t1: nat)
    ensures var p := Percents(Published(SimPlan(id, package, t0, t1)));
      && p == [20, 40, 60, 80, 100]
      && (forall i, j :: 0 <= i < j < |p| ==> p[i] < p[j])
      && p[|p| - 1] == 100
  {
    SimPercentsAre(id, package, t0, t1);
  }

  lemma SimPercentsAre(id: JobId, package: string, t0: nat, t1: nat)
    ensures Percents(Published(SimPlan(id, package, t0, t1))) == [20, 40, 60, 80, 100]
  {
    SimPublished(id, package, t0, t1);
    var start, finish := [JobStarted(id, package)], [JobFinished(id, true, 0)];
    PercentsConcat(start + SimEventsFrom(id, package, 0), finish);
    PercentsConcat(start, SimEventsFrom(id, package, 0));
    SimPercents(id, package, 0);
    assert start[1..] == [] && finish[1..] == [];
    PercentsFive();
  }

  lemma PercentsFive()
    ensures PercentsFrom(0) == [20, 40, 60, 80, 100]
  {
    assert PercentsFrom(5) == [];
    assert PercentsFrom(4) == [100];
  }

  lemma {:induction false} PercentsConcat(a: seq<Event>, b: seq<Event>)
    ensures Percents(a + b) == Percents(a) + Percents(b)
    decreases |a|
  {
    if a != [] {
      assert (a + b)[0] == a[0] && (a + b)[1..] == a[1..] + b;
      PercentsConcat(a[1..], b);
    } else {
      assert a + b == b;
    }
  }

  /** The percents `(i + 1) * 20` for the iterations from `i` on. */
  function PercentsFrom(i: nat): seq<int>
    decreases SimSteps - i
  {
    if i >= SimSteps then [] else [(i + 1) * 20] + PercentsFrom(i + 1)
  }

  lemma {:induction false} SimPercents(id: JobId, package: string, i: nat)
    ensures Percents(SimEventsFrom(id, package, i)) == PercentsFrom(i)
    decreases SimSteps - i
  {
    if i < SimSteps {
      var pair := [Stdout(id, SimLine(package, i + 1)), Progress(id, (i + 1) * 20)];
      SimPercents(id, package, i + 1);
      PercentsConcat(pair, SimEventsFrom(id, package, i + 1));
      assert pair[1..] == [Progress(id, (i + 1) * 20)] && pair[1..][1..] == [];
    }
  }

  /** The lines before the first empty read. */
  lemma {:induction false} FirstEmptyFacts(readlines: seq<string>, k: nat)
    requires k <= |readlines|
    ensures forall i :: k <= i < FirstEmptyFrom(readlines, k) ==> readlines[i] != ""
    ensures FirstEmptyFrom(readlines, k) == |readlines| || readlines[FirstEmptyFrom(readlines, k)] == ""
    decreases |readlines| - k
  {
    if k < |readlines| && readlines[k] != "" {
      FirstEmptyFacts(readlines, k + 1);
    }
  }

  /** A non-empty read before the first empty one yields the next decoded line. */
  lemma ReadMore(id: JobId, readlines: seq<string>, k: nat)
    requires k < |readlines| && readlines[k] != ""
    requires FirstEmptyFrom(readlines, k) == FirstEmptyFrom(readlines, 0)
    ensures k < |Decoded(readlines)| && Decoded(readlines)[k] == Strip(readlines[k])
    ensures FirstEmptyFrom(readlines, k + 1) == FirstEmptyFrom(readlines, 0)
    ensures RealBody(id, Decoded(readlines)[k..])
         == LineSteps(id, Strip(readlines[k])) + RealBody(id, Decoded(readlines)[k + 1..])
  {
    var lines := Decoded(readlines);
    assert lines[k..][0] == lines[k] && lines[k..][1..] == lines[k + 1..];
  }

  /** An empty read, or the end of the output, ends the decoded lines. */
  lemma ReadEnd(id: JobId, readlines: seq<string>, k: nat)
    requires k <= |readlines| && (k == |readlines| || readlines[k] == "")
    requires FirstEmptyFrom(readlines, k) == FirstEmptyFrom(readlines, 0)
    ensures k == |Decoded(readlines)| && RealBody(id, Decoded(readlines)[k..]) == []
  {
    assert Decoded(readlines)[k..] == [];
  }

  /** The real body has two steps per line and only appends and publishes `stdout`. */
  lemma {:induction false} RealBodyShape(id: JobId, lines: seq<string>)
    ensures |RealBody(id, lines)| == 2 * |lines|
    ensures NoUpdates(RealBody(id, lines)) && OwnOutput(id, RealBody(id, lines))
    decreases |lines|
  {
    if lines != [] {
      RealBodyShape(id, lines[1..]);
      OutputConcat(id, LineSteps(id, lines[0]), RealBody(id, lines[1..]));
    }
  }

  /** The real body appends exactly the lines, in order. */
  lemma {:induction false} RealBodyLogged(id: JobId, lines: seq<string>)
    ensures Logged(RealBody(id, lines)) == lines
    decreases |lines|
  {
    if lines != [] {
      var block := LineSteps(id, lines[0]);
      RealBodyLogged(id, lines[1..]);
      LoggedConcat(block, RealBody(id, lines[1..]));
      ApplyPair(map[], id, block[0], block[1]);
      assert block == [block[0], block[1]];
      assert lines == [lines[0]] + lines[1..];
    }
  }

  /** The real body publishes one `stdout` per line, in order. */
  lemma {:induction false} RealBodyPublished(id: JobId, lines: seq<string>)
    ensures Published(RealBody(id, lines)) == seq(|lines|, i requires 0 <= i < |lines| => Stdout(id, lines[i]))
    decreases |lines|
  {
    if lines != [] {
      var block := LineSteps(id, lines[0]);
      RealBodyPublished(id, lines[1..]);
      PublishedConcat(block, RealBody(id, lines[1..]));
      ApplyPair(map[], id, block[0], block[1]);
      assert block == [block[0], block[1]];
    }
  }

  /**
   * An uncancelled real run ends `finished` exactly when the exit code is
   * 0 and `failed` otherwise, records the exit code, and appends the lines
   * read before the first empty read, newline-stripped, in read order; no
   * other record changes.
   */
  lemma RealCompletes(jobs: map<JobId, Job>, id: JobId, package: string, out: Output, t0: nat, t1: nat)
    requires id in jobs
    ensures var r := ApplySteps(jobs, id, RealPlan(id, package, out, t0, t1));
      && r == jobs[id := jobs[id].(status := if out.rc == 0 then Finished else Failed, startedAt := Some(t0),
                                   finishedAt := Some(t1), exitCode := Some(out.rc),
                                   log := jobs[id].log + Decoded(out.readlines))]
      && (r[id].status == Finished <==> out.rc == 0)
      && (r[id].status == Failed <==> out.rc != 0)
  {
    var lines := Decoded(out.readlines);
    HeaderApplied(jobs, id, package, t0);
    RealBodyShape(id, lines);
    RealBodyLogged(id, lines);
    RunApplied(jobs, id, Header(id, package, t0) + [Spawn], RealBody(id, lines), t0,
               if out.rc == 0 then Finished else Failed, t1, out.rc, out.rc == 0);
  }

  /**
   * The real trace: `job_started`, one `stdout` per line read, in read
   * order, then `job_finished` whose success flag is `rc == 0`.
   */
  lemma RealTrace(id: JobId, package: string, out: Output, t0: nat, t1: nat)
    ensures var lines := Decoded(out.readlines);
      Published(RealPlan(id, package, out, t0, t1)) ==
        [JobStarted(id, package)]
        + seq(|lines|, i requires 0 <= i < |lines| => Stdout(id, lines[i]))
        + [JobFinished(id, out.rc == 0, out.rc)]
  {
    var h := Header(id, package, t0) + [Spawn];
    var b := RealBody(id, Decoded(out.readlines));
    var f := RealFooter(id, out.rc, t1);
    PublishedConcat(h + b, f);
    PublishedConcat(h, b);
    HeaderPublished(id, package, t0);
    RealBodyPublished(id, Decoded(out.readlines));
    FinishApplied(map[], id, if out.rc == 0 then Finished else Failed, t1, out.rc, out.rc == 0);
  }

  // ---------------------------------------------------------------------
  // The shape of a trace, wherever the cancellation falls

  /**
   * Every event is about job `id`, `job_started` can only be the first
   * event and `job_finished` only the last.
   */
  predicate WellFormedTrace(id: JobId, evs: seq<Event>)
  {
    && (forall i :: 0 <= i < |evs| ==> evs[i].jobId == id)
    && (forall i :: 0 < i < |evs| ==> !evs[i].JobStarted?)
    && (forall i :: 0 <= i < |evs| - 1 ==> !evs[i].JobFinished?)
  }

  /** Output events of job `id`: neither a start nor a finish. */
  predicate Middle(id: JobId, evs: seq<Event>)
  {
    forall i :: 0 <= i < |evs| ==> evs[i].jobId == id && !evs[i].JobStarted? && !evs[i].JobFinished?
  }

  /** The events a full plan publishes between `job_started` and `job_finished`. */
  function PlanMiddle(simulate: bool, id: JobId, package: string, run: Run): seq<Event>
  {
    if simulate then SimEventsFrom(id, package, 0)
    else
      var lines := Decoded(run.output.readlines);
      seq(|lines|, i requires 0 <= i < |lines| => Stdout(id, lines[i]))
  }

  /** The `job_finished` event that ends a full plan. */
  function PlanFinish(simulate: bool, id: JobId, run: Run): Event
  {
    if simulate then JobFinished(id, true, 0) else JobFinished(id, run.output.rc == 0, run.output.rc)
  }

  lemma {:induction false} SimEventsMiddle(id: JobId, package: string, i: nat)
    ensures Middle(id, SimEventsFrom(id, package, i))
    decreases SimSteps - i
  {
    if i < SimSteps {
      var pair := [Stdout(id, SimLine(package, i + 1)), Progress(id, (i + 1) * 20)];
      var rest := SimEventsFrom(id, package, i + 1);
      SimEventsMiddle(id, package, i + 1);
      forall k | 2 <= k < |pair + rest| ensures (pair + rest)[k] == rest[k - 2] {
      }
    }
  }

  /**
   * Either plan starts with the header, ends by publishing its
   * `job_finished`, and publishes `job_started`, output events, then
   * that `job_finished`.
   */
  lemma PlanShape(simulate: bool, id: JobId, package: string, run: Run)
    ensures var plan := Plan(simulate, id, package, run);
      && |plan| >= 3 && plan[..2] == Header(id, package, run.startedAt)
      && plan[|plan| - 1] == Publish(PlanFinish(simulate, id, run))
      && Published(plan) == [JobStarted(id, package)] + PlanMiddle(simulate, id, package, run) + [PlanFinish(simulate, id, run)]
      && Middle(id, PlanMiddle(simulate, id, package, run))
  {
    var h := Header(id, package, run.startedAt);
    if simulate {
      var rest := SimBodyFrom(id, package, 0) + SimFooter(id, run.finishedAt);
      assert SimPlan(id, package, run.startedAt, run.finishedAt) == h + rest;
      SimPublished(id, package, run.startedAt, run.finishedAt);
      SimEventsMiddle(id, package, 0);
    } else {
      var out := run.output;
      var rest := [Spawn] + RealBody(id, Decoded(out.readlines)) + RealFooter(id, out.rc, run.finishedAt);
      assert RealPlan(id, package, out, run.startedAt, run.finishedAt) == h + rest;
      RealTrace(id, package, out, run.startedAt, run.finishedAt);
    }
  }

  /** Cutting a plan that ends with a broadcast publishes a proper prefix of its events. */
  lemma CutPublished(plan: seq<Step>, c: nat)
    requires c < |plan| && plan[|plan| - 1].Publish?
    ensures |Published(plan[..c])| < |Published(plan)|
    ensures Published(plan[..c]) == Published(plan)[..|Published(plan[..c])|]
  {
    var last := plan[|plan| - 1];
    assert plan == plan[..c] + plan[c..];
    assert plan[c..] == plan[c..|plan| - 1] + [last];
    PublishedConcat(plan[..c], plan[c..]);
    PublishedConcat(plan[c..|plan| - 1], [last]);
    Single(map[], "", last);
  }

  /** A cut before the `job_started` broadcast publishes nothing; a later one starts with it. */
  lemma HeaderPrefix(id: JobId, package: string, t0: nat, plan: seq<Step>, c: nat)
    requires 2 <= |plan| && plan[..2] == Header(id, package, t0) && c <= |plan|
    ensures c < 2 ==> Published(plan[..c]) == []
    ensures c >= 2 ==> Published(plan[..c]) != [] && Published(plan[..c])[0] == JobStarted(id, package)
  {
    var h := Header(id, package, t0);
    if c == 1 {
      assert plan[..1] == [h[0]];
      Single(map[], id, h[0]);
    } else if c >= 2 {
      assert plan[..c] == h + plan[2..c];
      PublishedConcat(h, plan[2..c]);
      HeaderPublished(id, package, t0);
    }
  }

  /** The events of a cut plan: well formed, never a `job_finished`, and started once past the header. */
  lemma PrefixTrace(simulate: bool, id: JobId, package: string, run: Run, c: nat)
    requires c < |Plan(simulate, id, package, run)|
    ensures var evs := Published(Plan(simulate, id, package, run)[..c]);
      && WellFormedTrace(id, evs)
      && (forall i :: 0 <= i < |evs| ==> !evs[i].JobFinished?)
      && (evs != [] && evs[0] == JobStarted(id, package) <==> c >= 2)
  {
    var plan := Plan(simulate, id, package, run);
    var m := PlanMiddle(simulate, id, package, run);
    var full := Published(plan);
    PlanShape(simulate, id, package, run);
    CutPublished(plan, c);
    HeaderPrefix(id, package, run.startedAt, plan, c);
    var evs := Published(plan[..c]);
    forall i | 0 <= i < |evs|
      ensures evs[i].jobId == id && !evs[i].JobFinished? && (i > 0 ==> !evs[i].JobStarted?)
    {
      assert evs[i] == full[i];
      if i > 0 {
        assert full[i] == m[i - 1];
      }
    }
  }

  /** A cut plan followed by the cancellation handler's broadcast is well formed and ends finished. */
  lemma HandledTrace(id: JobId, evs: seq<Event>, t1: nat)
    requires WellFormedTrace(id, evs) && forall i :: 0 <= i < |evs| ==> !evs[i].JobFinished?
    ensures WellFormedTrace(id, evs + Published(CancelHandler(id, t1)))
    ensures Published(CancelHandler(id, t1)) == [JobFinished(id, false, -1)]
  {
    FinishApplied(map[], id, Failed, t1, -1, false);
  }

  /**
   * Whatever the cut, the trace of one job is well formed; it starts with
   * `job_started` unless the cut falls before that broadcast, and it
   * ends with a `job_finished` exactly when the cancellation does not
   * escape.
   */
  lemma TraceShape(simulate: bool, id: JobId, package: string, run: Run)
    ensures var evs := Published(Executed(simulate, id, package, run));
      && WellFormedTrace(id, evs)
      && (evs != [] && evs[0] == JobStarted(id, package) <==> run.cancel != Some(0) && run.cancel != Some(1))
      && (evs != [] && evs[|evs| - 1].JobFinished? <==> !Escapes(simulate, id, package, run))
  {
    var plan := Plan(simulate, id, package, run);
    PlanShape(simulate, id, package, run);
    if run.cancel.None? || run.cancel.value >= |plan| {
      FullTrace(simulate, id, package, run);
    } else {
      var c := run.cancel.value;
      PrefixTrace(simulate, id, package, run, c);
      if !simulate && c >= TryStart {
        HandledTrace(id, Published(plan[..c]), run.finishedAt);
        PublishedConcat(plan[..c], CancelHandler(id, run.finishedAt));
      }
    }
  }

  /** An uncut plan publishes a well-formed trace from `job_started` to `job_finished`. */
  lemma FullTrace(simulate: bool, id: JobId, package: string, run: Run)
    ensures var evs := Published(Plan(simulate, id, package, run));
      && WellFormedTrace(id, evs) && evs != []
      && evs[0] == JobStarted(id, package) && evs[|evs| - 1].JobFinished?
  {
    var m := PlanMiddle(simulate, id, package, run);
    var f := PlanFinish(simulate, id, run);
    PlanShape(simulate, id, package, run);
    var evs := [JobStarted(id, package)] + m + [f];
    forall i | 0 < i < |evs| - 1 ensures evs[i] == m[i - 1] {
    }
  }

  /** The first step of any run marks the job running, so every broadcast comes after it. */
  lemma RunningFirst(simulate: bool, id: JobId, package: string, run: Run)
    ensures var ex := Executed(simulate, id, package, run);
      forall k :: 0 <= k < |ex| && ex[k].Publish? ==> k > 0 && ex[0] == Update(RunningFields(run.startedAt))
  {
    var plan := Plan(simulate, id, package, run);
    PlanShape(simulate, id, package, run);
    assert plan[0] == Update(RunningFields(run.startedAt));
  }

  // ---------------------------------------------------------------------
  // What a cancellation leaves behind

  lemma NoUpdatesPrefix(steps: seq<Step>, n: nat)
    requires NoUpdates(steps) && n <= |steps|
    ensures NoUpdates(steps[..n])
  {
    forall k | 0 <= k < n ensures steps[..n][k] == steps[k] {
    }
  }

  /** The lines appended by a prefix of the steps are a prefix of the lines appended by all of them. */
  lemma LoggedPrefix(steps: seq<Step>, n: nat)
    requires n <= |steps|
    ensures Logged(steps[..n]) <= Logged(steps)
  {
    assert steps == steps[..n] + steps[n..];
    LoggedConcat(steps[..n], steps[n..]);
  }

  lemma PrefixWithin<T>(a: seq<T>, b: seq<T>, n: nat)
    requires n <= |a|
    ensures (a + b)[..n] == a[..n]
  {
  }

  lemma PrefixOfConcat<T>(a: seq<T>, b: seq<T>, n: nat)
    requires |a| <= n <= |a| + |b|
    ensures (a + b)[..n] == a + b[..n - |a|]
  {
  }

  /**
   * A simulated job cancelled anywhere inside the loop is left `running`,
   * with no `finished_at` or exit code written and a prefix of the
   * simulated lines appended; the error escapes, so no `job_finished` is
   * published.
   */
  lemma SimulatedCancelled(jobs: map<JobId, Job>, id: JobId, package: string, run: Run)
    requires id in jobs
    requires run.cancel.Some? && 2 <= run.cancel.value <= 2 + 3 * SimSteps
    ensures var lines := Logged(SimBodyFrom(id, package, 0)[..run.cancel.value - 2]);
      && lines <= SimLinesFrom(package, 0)
      && ApplySteps(jobs, id, Executed(true, id, package, run)) ==
         jobs[id := jobs[id].(status := Running, startedAt := Some(run.startedAt), log := jobs[id].log + lines)]
    ensures Escapes(true, id, package, run)
  {
    var c := run.cancel.value;
    var h := Header(id, package, run.startedAt);
    var body := SimBodyFrom(id, package, 0);
    SimBodyShape(id, package, 0);
    SimBodyLogged(id, package, 0);
    PrefixOfConcat(h, body, c);
    PrefixWithin(h + body, SimFooter(id, run.finishedAt), c);
    HeaderApplied(jobs, id, package, run.startedAt);
    NoUpdatesPrefix(body, c - 2);
    BodyApplied(jobs, id, h, body[..c - 2], run.startedAt);
    LoggedPrefix(body, c - 2);
  }

  /** The real plan, split into its start (up to the spawn), its output and its end. */
  lemma RealPlanParts(id: JobId, package: string, run: Run)
    ensures var pre := Header(id, package, run.startedAt) + [Spawn];
      var body := RealBody(id, Decoded(run.output.readlines));
      && Plan(false, id, package, run) == (pre + body) + RealFooter(id, run.output.rc, run.finishedAt)
      && |pre| == TryStart && Logged(pre) == [] && NoUpdates(body)
      && Logged(body) == Decoded(run.output.readlines)
  {
    StartLogsNothing(id, package, run.startedAt);
    RealBodyShape(id, Decoded(run.output.readlines));
    RealBodyLogged(id, Decoded(run.output.readlines));
  }

  /** The steps before the `try`: three of them, none touching the log. */
  lemma StartLogsNothing(id: JobId, package: string, t0: nat)
    ensures |Header(id, package, t0) + [Spawn]| == TryStart && Logged(Header(id, package, t0) + [Spawn]) == []
  {
    var h := Header(id, package, t0);
    LoggedConcat(h, [Spawn]);
    ApplyPair(map[], id, h[0], h[1]);
    Single(map[], id, Spawn);
  }

  /** Inside the `try`, a cut runs the handler after the steps taken. */
  lemma HandledCut(id: JobId, package: string, run: Run)
    requires run.cancel.Some? && TryStart <= run.cancel.value < |Plan(false, id, package, run)|
    ensures Executed(false, id, package, run)
         == Plan(false, id, package, run)[..run.cancel.value] + CancelHandler(id, run.finishedAt)
  {
  }

  /** A cut during the output: the start, then the steps of the lines read so far. */
  lemma ReadingCut(id: JobId, package: string, run: Run)
    requires run.cancel.Some?
    requires TryStart <= run.cancel.value <= TryStart + |RealBody(id, Decoded(run.output.readlines))|
    ensures Plan(false, id, package, run)[..run.cancel.value]
         == (Header(id, package, run.startedAt) + [Spawn])
            + RealBody(id, Decoded(run.output.readlines))[..run.cancel.value - TryStart]
  {
    var pre := Header(id, package, run.startedAt) + [Spawn];
    var body := RealBody(id, Decoded(run.output.readlines));
    RealPlanParts(id, package, run);
    PrefixOfConcat(pre, body, run.cancel.value);
    PrefixWithin(pre + body, RealFooter(id, run.output.rc, run.finishedAt), run.cancel.value);
  }

  /**
   * A real job cancelled inside the `try`, during the output: the
   * handler marks it `failed` with exit code -1 and the lines read so far
   * stay in its log.
   */
  lemma RealCancelledReading(jobs: map<JobId, Job>, id: JobId, package: string, run: Run)
    requires id in jobs
    requires run.cancel.Some?
    requires TryStart <= run.cancel.value <= TryStart + |RealBody(id, Decoded(run.output.readlines))|
    ensures var logged := Logged(Plan(false, id, package, run)[..run.cancel.value]);
      && logged <= Decoded(run.output.readlines)
      && ApplySteps(jobs, id, Executed(false, id, package, run)) ==
         jobs[id := jobs[id].(status := Failed, startedAt := Some(run.startedAt), finishedAt := Some(run.finishedAt),
                              exitCode := Some(-1), log := jobs[id].log + logged)]
  {
    var k := run.cancel.value - TryStart;
    var cut := (Header(id, package, run.startedAt) + [Spawn]) + RealBody(id, Decoded(run.output.readlines))[..k];
    RealPlanParts(id, package, run);
    ReadingCut(id, package, run);
    HandledCut(id, package, run);
    assert Executed(false, id, package, run) == cut + CancelHandler(id, run.finishedAt);
    ReadingApplied(jobs, id, package, run.startedAt, run.finishedAt, Decoded(run.output.readlines), k);
  }

  /** The handler after the start and the steps of the first `k` output steps. */
  lemma ReadingApplied(jobs: map<JobId, Job>, id: JobId, package: string, t0: nat, t1: nat, lines: seq<string>, k: nat)
    requires id in jobs && k <= |RealBody(id, lines)|
    ensures var cut := (Header(id, package, t0) + [Spawn]) + RealBody(id, lines)[..k];
      && Logged(cut) <= lines
      && ApplySteps(jobs, id, cut + CancelHandler(id, t1)) ==
         jobs[id := jobs[id].(status := Failed, startedAt := Some(t0), finishedAt := Some(t1),
                              exitCode := Some(-1), log := jobs[id].log + Logged(cut))]
  {
    var pre := Header(id, package, t0) + [Spawn];
    var body := RealBody(id, lines);
    StartLogsNothing(id, package, t0);
    RealBodyShape(id, lines);
    RealBodyLogged(id, lines);
    HeaderApplied(jobs, id, package, t0);
    NoUpdatesPrefix(body, k);
    HandledAfter(jobs, id, pre, body[..k], t0, t1);
    LoggedPrefix(body, k);
  }

  /**
   * The handler after a start that logs nothing and output steps: the job
   * is `failed` with exit code -1 and the output's lines in its log.
   */
  lemma HandledAfter(jobs: map<JobId, Job>, id: JobId, pre: seq<Step>, cut: seq<Step>, t0: nat, t1: nat)
    requires id in jobs
    requires ApplySteps(jobs, id, pre) == jobs[id := jobs[id].(status := Running, startedAt := Some(t0))]
    requires NoUpdates(cut) && Logged(pre) == []
    ensures Logged(pre + cut) == Logged(cut)
    ensures ApplySteps(jobs, id, (pre + cut) + CancelHandler(id, t1)) ==
      jobs[id := jobs[id].(status := Failed, startedAt := Some(t0), finishedAt := Some(t1),
                           exitCode := Some(-1), log := jobs[id].log + Logged(pre + cut))]
  {
    LoggedConcat(pre, cut);
    RunApplied(jobs, id, pre, cut, t0, Failed, t1, -1, false);
  }

  /** Writing the final status after the output: the record holds the process's result. */
  lemma CompletedApplied(jobs: map<JobId, Job>, id: JobId, pre: seq<Step>, body: seq<Step>,
                         t0: nat, status: Status, t1: nat, rc: int)
    requires id in jobs
    requires ApplySteps(jobs, id, pre) == jobs[id := jobs[id].(status := Running, startedAt := Some(t0))]
    requires NoUpdates(body)
    ensures ApplySteps(jobs, id, pre + body + [Update(DoneFields(status, t1, rc))]) ==
      jobs[id := jobs[id].(status := status, startedAt := Some(t0), finishedAt := Some(t1),
                           exitCode := Some(rc), log := jobs[id].log + Logged(body))]
  {
    BodyApplied(jobs, id, pre, body, t0);
    StepTaken(jobs, id, pre + body, Update(DoneFields(status, t1, rc)));
    var j0 := jobs[id];
    DoneAssigned(j0.(status := Running, startedAt := Some(t0), log := j0.log + Logged(body)), status, t1, rc);
  }

  /** The handler's update overwrites status, `finished_at` and exit code, whatever they were. */
  lemma HandlerApplied(jobs: map<JobId, Job>, id: JobId, steps: seq<Step>, t1: nat)
    requires id in ApplySteps(jobs, id, steps)
    ensures var r := ApplySteps(jobs, id, steps);
      ApplySteps(jobs, id, steps + CancelHandler(id, t1)) ==
        r[id := r[id].(status := Failed, finishedAt := Some(t1), exitCode := Some(-1))]
  {
    ApplyConcat(jobs, id, steps, CancelHandler(id, t1));
    FinishApplied(ApplySteps(jobs, id, steps), id, Failed, t1, -1, false);
  }

  /** A cut just before the final broadcast comes after the final update. */
  lemma LastCut(id: JobId, package: string, run: Run)
    ensures var plan := Plan(false, id, package, run);
      var rc := run.output.rc;
      plan[..|plan| - 1] == (Header(id, package, run.startedAt) + [Spawn])
                           + RealBody(id, Decoded(run.output.readlines))
                           + [Update(DoneFields(if rc == 0 then Finished else Failed, run.finishedAt, rc))]
  {
    var pre := Header(id, package, run.startedAt) + [Spawn];
    var body := RealBody(id, Decoded(run.output.readlines));
    var footer := RealFooter(id, run.output.rc, run.finishedAt);
    RealPlanParts(id, package, run);
    PrefixOfConcat(pre + body, footer, |pre + body| + 1);
    assert footer[..1] == [footer[0]];
  }

  /** At the last cut the final status and exit code have been written. */
  lemma LateCutApplied(jobs: map<JobId, Job>, id: JobId, package: string, run: Run)
    requires id in jobs
    ensures var plan := Plan(false, id, package, run);
      var rc := run.output.rc;
      ApplySteps(jobs, id, plan[..|plan| - 1]) ==
        jobs[id := jobs[id].(status := if rc == 0 then Finished else Failed, startedAt := Some(run.startedAt),
                             finishedAt := Some(run.finishedAt), exitCode := Some(rc),
                             log := jobs[id].log + Decoded(run.output.readlines))]
  {
    var rc := run.output.rc;
    var pre := Header(id, package, run.startedAt) + [Spawn];
    var body := RealBody(id, Decoded(run.output.readlines));
    RealPlanParts(id, package, run);
    LastCut(id, package, run);
    HeaderApplied(jobs, id, package, run.startedAt);
    CompletedApplied(jobs, id, pre, body, run.startedAt, if rc == 0 then Finished else Failed, run.finishedAt, rc);
  }

  /**
   * A real job cancelled after its final status was written but before
   * `job_finished` went out: the record first holds the process's result,
   * and the handler then overwrites it with `failed` and exit code -1.
   */
  lemma LateCancel(jobs: map<JobId, Job>, id: JobId, package: string, run: Run)
    requires id in jobs
    requires run.cancel == Some(|Plan(false, id, package, run)| - 1)
    ensures var rc := run.output.rc;
      var before := ApplySteps(jobs, id, Plan(false, id, package, run)[..run.cancel.value]);
      var after := ApplySteps(jobs, id, Executed(false, id, package, run));
      && id in before && id in after
      && before[id].status == (if rc == 0 then Finished else Failed) && before[id].exitCode == Some(rc)
      && after[id] == before[id].(status := Failed, exitCode := Some(-1))
  {
    var plan := Plan(false, id, package, run);
    LateCutApplied(jobs, id, package, run);
    HandledCut(id, package, run);
    HandlerApplied(jobs, id, plan[..|plan| - 1], run.finishedAt);
  }

  /** At the last cut every output line has been logged. */
  lemma LateCancelLogged(id: JobId, package: string, run: Run)
    ensures var plan := Plan(false, id, package, run);
      Logged(plan[..|plan| - 1]) == Decoded(run.output.readlines)
  {
    var rc := run.output.rc;
    var pre := Header(id, package, run.startedAt) + [Spawn];
    var body := RealBody(id, Decoded(run.output.readlines));
    var fin := Update(DoneFields(if rc == 0 then Finished else Failed, run.finishedAt, rc));
    RealPlanParts(id, package, run);
    LastCut(id, package, run);
    LoggedConcat(pre, body);
    LoggedConcat(pre + body, [fin]);
    Single(map[], id, fin);
  }

  /**
   * The real path as written. A cancellation during the final
   * `job_finished` broadcast arrives after `process.wait()` has returned;
   * asyncio has released the child by then, so the handler's
   * `process.kill()` raises `ProcessLookupError` and the handler does
   * nothing more.
   */
  function ExecutedAsWritten(id: JobId, package: string, run: Run): seq<Step>
  {
    var plan := Plan(false, id, package, run);
    if run.cancel == Some(|plan| - 1) then plan[..|plan| - 1] else Executed(false, id, package, run)
  }

  /** As written, an error leaves `_process_job` for that late cut as well. */
  predicate EscapesAsWritten(id: JobId, package: string, run: Run)
  {
    run.cancel == Some(|Plan(false, id, package, run)| - 1) || Escapes(false, id, package, run)
  }

  /**
   * As written, the late cancellation leaves the process's own result in
   * the record, publishes no `job_finished` and escapes, where the
   * handler was meant to record `failed` with exit code -1 and announce
   * it (`LateCancel`, `RealCancelled`).
   */
  lemma LateCancelAsWritten(jobs: map<JobId, Job>, id: JobId, package: string, run: Run)
    requires id in jobs
    requires run.cancel == Some(|Plan(false, id, package, run)| - 1)
    ensures var rc := run.output.rc;
      var after := ApplySteps(jobs, id, ExecutedAsWritten(id, package, run));
      && id in after
      && after[id].status == (if rc == 0 then Finished else Failed) && after[id].exitCode == Some(rc)
    ensures var evs := Published(ExecutedAsWritten(id, package, run));
      forall i :: 0 <= i < |evs| ==> !evs[i].JobFinished?
    ensures EscapesAsWritten(id, package, run) && !Escapes(false, id, package, run)
  {
    LateCutApplied(jobs, id, package, run);
    PrefixTrace(false, id, package, run, run.cancel.value);
  }

  /**
   * A real job cancelled anywhere inside the `try` ends `failed` with
   * exit code -1 and a prefix of its output lines appended to the log,
   * and its last event is `job_finished{success: false, exit_code: -1}`.
   */
  lemma RealCancelled(jobs: map<JobId, Job>, id: JobId, package: string, run: Run)
    requires id in jobs
    requires run.cancel.Some? && TryStart <= run.cancel.value < |Plan(false, id, package, run)|
    ensures var logged := Logged(Plan(false, id, package, run)[..run.cancel.value]);
      var after := ApplySteps(jobs, id, Executed(false, id, package, run));
      && logged <= Decoded(run.output.readlines)
      && id in after
      && after[id] == jobs[id].(status := Failed, startedAt := Some(run.startedAt), finishedAt := Some(run.finishedAt),
                                exitCode := Some(-1), log := jobs[id].log + logged)
    ensures var evs := Published(Executed(false, id, package, run));
      evs != [] && evs[|evs| - 1] == JobFinished(id, false, -1)
  {
    var c := run.cancel.value;
    var plan := Plan(false, id, package, run);
    RealPlanParts(id, package, run);
    if c <= TryStart + |RealBody(id, Decoded(run.output.readlines))| {
      RealCancelledReading(jobs, id, package, run);
    } else {
      LateCancel(jobs, id, package, run);
      LateCutApplied(jobs, id, package, run);
      LateCancelLogged(id, package, run);
    }
    HandledCut(id, package, run);
    PublishedConcat(plan[..c], CancelHandler(id, run.finishedAt));
    FinishApplied(map[], id, Failed, run.finishedAt, -1, false);
  }

  /** Taking `m` more steps of `block` out of what remains of `whole`. */
  lemma Regroup<T>(whole: seq<T>, done: seq<T>, block: seq<T>, more: seq<T>, m: nat)
    requires whole == done + (block + more) && m <= |block|
    ensures whole == (done + block[..m]) + (block[m..] + more)
    ensures m == |block| ==> block[m..] + more == more
  {
    assert block == block[..m] + block[m..];
    if m == |block| {
      assert block[m..] == [];
    }
  }

  lemma Assoc<T>(a: seq<T>, b: seq<T>, c: seq<T>)
    ensures (a + b) + c == a + (b + c)
  {
  }

  lemma Assoc4<T>(a: seq<T>, b: seq<T>, c: seq<T>, d: seq<T>)
    ensures a + (b + c) + d == (a + b) + (c + d)
  {
  }

  lemma Unit<T>(a: seq<T>)
    ensures a + [] == a && [] + a == a
  {
  }

  /** The steps so far followed by the next one of `block`. */
  lemma SnocBlock<T>(prior: seq<T>, block: seq<T>, m: nat)
    requires m < |block|
    ensures (prior + block[..m]) + [block[m]] == prior + block[..m + 1]
  {
    assert block[..m + 1] == block[..m] + [block[m]];
  }

  /**
   * A cancellation that arrives after `steps` and before the plan ends:
   * inside the `try` of the real path the handler runs, anywhere else
   * the error escapes with the steps taken so far.
   */
  lemma CutOutcome(simulate: bool, id: JobId, package: string, run: Run, steps: seq<Step>, rest: seq<Step>)
    requires Plan(simulate, id, package, run) == steps + rest && rest != []
    requires run.cancel == Some(|steps|)
    ensures Escapes(simulate, id, package, run) == (simulate || |steps| < TryStart)
    ensures Executed(simulate, id, package, run)
         == if !simulate && |steps| >= TryStart then steps + CancelHandler(id, run.finishedAt) else steps
  {
    assert (steps + rest)[..|steps|] == steps;
  }

  /** A cancellation during the first two steps escapes with the steps taken. */
  lemma HeaderCut(simulate: bool, id: JobId, package: string, run: Run, steps: seq<Step>)
    requires |steps| < 2 && steps == Header(id, package, run.startedAt)[..|steps|]
    requires run.cancel == Some(|steps|)
    ensures Executed(simulate, id, package, run) == steps
    ensures Escapes(simulate, id, package, run)
  {
    var h := Header(id, package, run.startedAt);
    var plan := Plan(simulate, id, package, run);
    var tail := plan[2..];
    assert plan == h + tail;
    assert h == steps + h[|steps|..];
    CutOutcome(simulate, id, package, run, steps, h[|steps|..] + tail);
  }

  // ---------------------------------------------------------------------
  // The worker

  class InstallerWorker {
    /** The job store the worker drains. */
    const store: JobQueue
    /** `SIMULATE_INSTALL`, fixed at start-up. */
    const simulate: bool
    /** Every message handed to `ws.broadcast`, in order. */
    var events: seq<Event>

    constructor (store: JobQueue, simulate: bool)
      ensures this.store == store && this.simulate == simulate && events == []
    {
      this.store := store;
      this.simulate := simulate;
      events := [];
    }

    /** The store and the bus show exactly the effect of `steps` since `jobs0`, `events0`. */
    ghost predicate Reached(jobs0: map<JobId, Job>, events0: seq<Event>, id: JobId, steps: seq<Step>)
      reads this, store
    {
      store.jobs == ApplySteps(jobs0, id, steps) && events == events0 + Published(steps)
    }

    /** `ws.broadcast(event)`, as seen from the worker. */
    method Broadcast(e: Event)
      modifies this`events
      ensures events == old(events) + [e]
    {
      events := events + [e];
    }

    /** The store's queue bookkeeping is still `order0`, `queue0`, `taken0`. */
    ghost predicate Steady(order0: seq<JobId>, queue0: seq<JobId>, taken0: nat)
      reads store
    {
      store.order == order0 && store.queue == queue0 && store.taken == taken0
    }

    /** `update_job_status(job_id, **fields)` as one step of a run. */
    method SetFields(id: JobId, fields: seq<Assign>, ghost jobs0: map<JobId, Job>, ghost events0: seq<Event>, ghost steps: seq<Step>)
      requires Reached(jobs0, events0, id, steps)
      modifies store
      ensures Steady(old(store.order), old(store.queue), old(store.taken))
      ensures Reached(jobs0, events0, id, steps + [Update(fields)])
    {
      store.UpdateJobStatus(id, fields);
      StepTaken(jobs0, id, steps, Update(fields));
    }

    /** `get_job` followed by `update_job_status(job_id, log=current.log + [line])`. */
    method LogLine(id: JobId, line: string, ghost jobs0: map<JobId, Job>, ghost events0: seq<Event>, ghost steps: seq<Step>)
      requires Reached(jobs0, events0, id, steps)
      modifies store
      ensures Steady(old(store.order), old(store.queue), old(store.taken))
      ensures Reached(jobs0, events0, id, steps + [AppendLog(line)])
    {
      var current := store.GetJob(id);
      var newLog := (if current.Some? then current.value.log else []) + [line];
      store.UpdateJobStatus(id, [SetLog(newLog)]);
      StepTaken(jobs0, id, steps, AppendLog(line));
    }

    /** `ws.broadcast(event)` as one step of a run. */
    method Announce(id: JobId, e: Event, ghost jobs0: map<JobId, Job>, ghost events0: seq<Event>, ghost steps: seq<Step>)
      requires Reached(jobs0, events0, id, steps)
      modifies this`events
      ensures Reached(jobs0, events0, id, steps + [Publish(e)])
    {
      Broadcast(e);
      StepTaken(jobs0, id, steps, Publish(e));
    }

    /**
     * The `except asyncio.CancelledError` handler: the killed process
     * is reaped, the job is marked failed with exit code -1, and
     * `job_finished` is still published.
     */
    method HandleCancel(id: JobId, t1: nat, ghost jobs0: map<JobId, Job>, ghost events0: seq<Event>, ghost steps: seq<Step>)
      requires Reached(jobs0, events0, id, steps)
      modifies this`events, store
      ensures Steady(old(store.order), old(store.queue), old(store.taken))
      ensures Reached(jobs0, events0, id, steps + CancelHandler(id, t1))
    {
      FinishApplied(store.jobs, id, Failed, t1, -1, false);
      store.UpdateJobStatus(id, DoneFields(Failed, t1, -1));
      Broadcast(JobFinished(id, false, -1));
      ApplyConcat(jobs0, id, steps, CancelHandler(id, t1));
      PublishedConcat(steps, CancelHandler(id, t1));
    }

    /**
     * `_run_loop` until shutdown, modelled as one run per turn: dequeue
     * the head job and process it. The first cancelled run ends the loop
     * (`DrainWithCancelled`), whether its cancellation escapes or the handler
     * catches it and the loop then finds the shutdown flag set. Dequeueing from an empty
     * queue would block, so there are no more turns than queued jobs.
     */
    method RunLoop(runs: seq<Run>) returns (processed: nat)
      requires store.Valid()
      requires |runs| <= |store.queue|
      modifies this`events, store
      ensures store.Valid()
      ensures var o := Drain(simulate, old(store.jobs), old(store.queue), runs);
        && store.jobs == o.jobs && events == old(events) + o.events
        && processed == o.processed && store.queue == old(store.queue)[processed..]
      ensures store.order == old(store.order) && store.taken == old(store.taken) + processed
    {
      ghost var jobs0, queue0, events0 := store.jobs, store.queue, events;
      var i, stop := 0, false;
      while i < |runs| && !stop
        invariant i <= |runs| && store.Valid()
        invariant store.queue == queue0[i..]
        invariant store.order == old(store.order) && store.taken == old(store.taken) + i
        invariant Drain(simulate, jobs0, queue0, runs[..i]).stopped == stop
        invariant Drain(simulate, jobs0, queue0, runs[..i]).processed == i
        invariant store.jobs == Drain(simulate, jobs0, queue0, runs[..i]).jobs
        invariant events == events0 + Drain(simulate, jobs0, queue0, runs[..i]).events
        decreases |runs| - i
      {
        stop := Serve(jobs0, queue0, events0, runs, i);
        i := i + 1;
      }
      if stop {
        DrainStopped(ProcessTurn(simulate), jobs0, queue0, runs, i);
      } else {
        assert runs[..i] == runs;
      }
      return i;
    }

    /**
     * One turn of `_run_loop`: `dequeue()` the head job, then `_process_job` it.
     * The store and the bus move from the outcome of the first `i` turns to
     * that of the first `i + 1`; the loop ends exactly when this run was
     * cancelled.
     */
    method Serve(ghost jobs0: map<JobId, Job>, ghost queue0: seq<JobId>, ghost events0: seq<Event>, runs: seq<Run>, i: nat)
      returns (stop: bool)
      requires i < |runs| <= |queue0|
      requires store.Valid() && store.queue == queue0[i..]
      requires !Drain(simulate, jobs0, queue0, runs[..i]).stopped
      requires store.jobs == Drain(simulate, jobs0, queue0, runs[..i]).jobs
      requires events == events0 + Drain(simulate, jobs0, queue0, runs[..i]).events
      modifies this`events, store
      ensures store.Valid() && store.queue == queue0[i + 1..]
      ensures store.order == old(store.order) && store.taken == old(store.taken) + 1
      ensures store.jobs == Drain(simulate, jobs0, queue0, runs[..i + 1]).jobs
      ensures events == events0 + Drain(simulate, jobs0, queue0, runs[..i + 1]).events
      ensures stop == runs[i].cancel.Some? && stop == Drain(simulate, jobs0, queue0, runs[..i + 1]).stopped
      ensures Drain(simulate, jobs0, queue0, runs[..i + 1]).processed == i + 1
    {
      ghost var jobsBefore, eventsBefore := store.jobs, events;
      var job := store.Dequeue();
      ghost var steps := Executed(simulate, job.value.jobId, job.value.package, runs[i]);
      var escaped := ProcessJob(job.value, runs[i]);
      stop := runs[i].cancel.Some?;
      DrainTurn(simulate, jobs0, queue0, runs, i, job.value, steps, stop, events0, jobsBefore, store.jobs, eventsBefore, events);
    }

    /**
     * `_process_job(job)`: the store and the published events end up as
     * the executed steps of the plan make them, and the cancellation
     * escapes exactly when no handler catches it.
     */
    method ProcessJob(job: Job, run: Run) returns (escaped: bool)
      requires store.Valid()
      modifies this`events, store
      ensures store.Valid()
      ensures store.order == old(store.order) && store.queue == old(store.queue) && store.taken == old(store.taken)
      ensures store.jobs == ApplySteps(old(store.jobs), job.jobId, Executed(simulate, job.jobId, job.package, run))
      ensures events == old(events) + Published(Executed(simulate, job.jobId, job.package, run))
      ensures escaped == Escapes(simulate, job.jobId, job.package, run)
    {
      ghost var jobs0, events0 := store.jobs, events;
      ghost var steps;
      escaped, steps := StartJob(job, run, jobs0, events0);
      if escaped {
        HeaderCut(simulate, job.jobId, job.package, run, steps);
      } else if simulate {
        escaped := SimulatedInstall(job, run, jobs0, events0, steps);
      } else {
        escaped := RealInstall(job, run, jobs0, events0, steps);
      }
      StepsKeepConsistent(jobs0, job.jobId, Executed(simulate, job.jobId, job.package, run),
                          store.order, store.queue, store.taken);
    }

    /**
     * The two steps before either branch: mark the job running, then
     * publish `job_started`. A cancellation here escapes.
     */
    method StartJob(job: Job, run: Run, ghost jobs0: map<JobId, Job>, ghost events0: seq<Event>)
      returns (escaped: bool, ghost steps: seq<Step>)
      requires store.jobs == jobs0 && events == events0
      modifies this`events, store
      ensures Steady(old(store.order), old(store.queue), old(store.taken))
      ensures Reached(jobs0, events0, job.jobId, steps)
      ensures escaped ==> |steps| < 2 && run.cancel == Some(|steps|)
      ensures escaped ==> steps == Header(job.jobId, job.package, run.startedAt)[..|steps|]
      ensures !escaped ==> steps == Header(job.jobId, job.package, run.startedAt)
      ensures !escaped ==> run.cancel.Some? ==> run.cancel.value >= 2
    {
      var id := job.jobId;
      ghost var h := Header(id, job.package, run.startedAt);
      steps := [];
      assert events0 + Published(steps) == events0;
      if run.cancel == Some(0) {
        return true, steps;
      }
      SetFields(id, RunningFields(run.startedAt), jobs0, events0, steps);
      steps := steps + [Update(RunningFields(run.startedAt))];
      assert h[..1] == steps;

      if run.cancel == Some(1) {
        return true, steps;
      }
      Announce(id, JobStarted(id, job.package), jobs0, events0, steps);
      steps := steps + [Publish(JobStarted(id, job.package))];
      return false, steps;
    }

    /** The `SIMULATE_INSTALL` branch of `_process_job`, after the header. */
    method SimulatedInstall(job: Job, run: Run, ghost jobs0: map<JobId, Job>, ghost events0: seq<Event>, ghost header: seq<Step>)
      returns (escaped: bool)
      requires simulate
      requires header == Header(job.jobId, job.package, run.startedAt)
      requires Reached(jobs0, events0, job.jobId, header)
      requires run.cancel.Some? ==> run.cancel.value >= |header|
      modifies this`events, store
      ensures Steady(old(store.order), old(store.queue), old(store.taken))
      ensures Reached(jobs0, events0, job.jobId, Executed(simulate, job.jobId, job.package, run))
      ensures escaped == Escapes(simulate, job.jobId, job.package, run)
    {
      var id, t1 := job.jobId, run.finishedAt;
      ghost var plan := Plan(simulate, id, job.package, run);
      ghost var body := SimBodyFrom(id, job.package, 0);
      var done;
      ghost var taken, left;
      escaped, done, taken, left := SimulatedOutput(id, job.package, run.cancel, jobs0, events0, header);
      ghost var steps := header + taken;
      ghost var rest := left + SimFooter(id, t1);
      Assoc4(header, taken, left, SimFooter(id, t1));
      if escaped {
        CutOutcome(simulate, id, job.package, run, steps, rest);
        return;
      }
      ghost var footer := SimFooter(id, t1);
      Unit(footer);
      var m;
      escaped, m := FinishSimulated(id, run.cancel, done, t1, jobs0, events0, steps);
      Regroup(plan, steps, footer, [], m);
      Unit(footer[m..]);
      if escaped {
        CutOutcome(simulate, id, job.package, run, steps + footer[..m], footer[m..]);
        return;
      }
      assert footer[..m] == footer;
    }

    /**
     * The end of the simulated branch after the steps `prior`: the final
     * update and `job_finished`, of which the first `m` are taken; a
     * cancellation before either escapes.
     */
    method FinishSimulated(id: JobId, cancel: Option<nat>, done: nat, t1: nat,
                           ghost jobs0: map<JobId, Job>, ghost events0: seq<Event>, ghost prior: seq<Step>)
      returns (escaped: bool, m: nat)
      requires done == |prior|
      requires Reached(jobs0, events0, id, prior)
      requires cancel.Some? ==> cancel.value >= done
      modifies this`events, store
      ensures Steady(old(store.order), old(store.queue), old(store.taken))
      ensures m <= 2 && Reached(jobs0, events0, id, prior + SimFooter(id, t1)[..m])
      ensures escaped ==> m < 2 && cancel == Some(done + m)
      ensures !escaped ==> m == 2 && (cancel.Some? ==> cancel.value >= done + 2)
    {
      ghost var footer := SimFooter(id, t1);
      assert prior + footer[..0] == prior;
      if cancel == Some(done) {
        return true, 0;
      }
      SetFields(id, DoneFields(Finished, t1, 0), jobs0, events0, prior);
      SnocBlock(prior, footer, 0);

      if cancel == Some(done + 1) {
        return true, 1;
      }
      Announce(id, JobFinished(id, true, 0), jobs0, events0, prior + footer[..1]);
      SnocBlock(prior, footer, 1);
      return false, 2;
    }

    /**
     * The five simulated output lines after the `header` steps: the
     * steps `taken` are a prefix of the simulated body, the rest of it
     * is `left`, and either the cancellation escapes right after them or
     * the whole body is taken.
     */
    method SimulatedOutput(id: JobId, package: string, cancel: Option<nat>,
                           ghost jobs0: map<JobId, Job>, ghost events0: seq<Event>, ghost header: seq<Step>)
      returns (escaped: bool, done: nat, ghost taken: seq<Step>, ghost left: seq<Step>)
      requires |header| == 2
      requires Reached(jobs0, events0, id, header)
      requires cancel.Some? ==> cancel.value >= |header|
      modifies this`events, store
      ensures Steady(old(store.order), old(store.queue), old(store.taken))
      ensures Reached(jobs0, events0, id, header + taken)
      ensures done == |header| + |taken| && SimBodyFrom(id, package, 0) == taken + left
      ensures escaped ==> cancel == Some(done)
      ensures !escaped ==> left == [] && (cancel.Some? ==> cancel.value >= done)
    {
      ghost var order0, queue0, taken0 := store.order, store.queue, store.taken;
      ghost var whole := SimBodyFrom(id, package, 0);
      taken, left := [], whole;
      done := 2;
      Unit(header);
      Unit(whole);
      var i := 0;
      escaped := false;
      while i < SimSteps && !escaped
        decreases SimSteps - i, if escaped then 0 else 1
        invariant 0 <= i <= SimSteps
        invariant done == |header| + |taken| && whole == taken + left
        invariant escaped ==> cancel == Some(done)
        invariant !escaped ==> left == SimBodyFrom(id, package, i) && (cancel.Some? ==> cancel.value >= done)
        invariant Steady(order0, queue0, taken0)
        invariant Reached(jobs0, events0, id, header + taken)
      {
        escaped, done, taken, left := SimulatedIteration(id, package, i, cancel, done, jobs0, events0, header, whole, taken, left);
        if !escaped {
          i := i + 1;
        }
      }
    }

    /**
     * Iteration `i` of the simulated loop, seen against the whole body:
     * the steps it takes move from the front of `left` to the end of `taken`.
     */
    method SimulatedIteration(id: JobId, package: string, i: nat, cancel: Option<nat>, done: nat,
                              ghost jobs0: map<JobId, Job>, ghost events0: seq<Event>, ghost header: seq<Step>,
                              ghost whole: seq<Step>, ghost taken: seq<Step>, ghost left: seq<Step>)
      returns (escaped: bool, done': nat, ghost taken': seq<Step>, ghost left': seq<Step>)
      requires i < SimSteps
      requires done == |header| + |taken| && whole == taken + left && left == SimBodyFrom(id, package, i)
      requires cancel.Some? ==> cancel.value >= done
      requires Reached(jobs0, events0, id, header + taken)
      modifies this`events, store
      ensures Steady(old(store.order), old(store.queue), old(store.taken))
      ensures done' == |header| + |taken'| && whole == taken' + left'
      ensures Reached(jobs0, events0, id, header + taken')
      ensures escaped ==> cancel == Some(done')
      ensures !escaped ==> left' == SimBodyFrom(id, package, i + 1) && (cancel.Some? ==> cancel.value >= done')
    {
      ghost var block, more := SimBlock(id, package, i), SimBodyFrom(id, package, i + 1);
      SimBodyStep(id, package, i);
      var m;
      escaped, m := SimulatedLine(id, package, i, cancel, done, jobs0, events0, header + taken);
      Regroup(whole, taken, block, more, m);
      Assoc(header, taken, block[..m]);
      taken', left', done' := taken + block[..m], block[m..] + more, done + m;
    }

    /**
     * Iteration `i` of the simulated loop after the steps `prior`: the
     * first `m` of its three steps are taken, and the cancellation
     * escapes right after them unless all three are.
     */
    method SimulatedLine(id: JobId, package: string, i: nat, cancel: Option<nat>, done: nat,
                         ghost jobs0: map<JobId, Job>, ghost events0: seq<Event>, ghost prior: seq<Step>)
      returns (escaped: bool, m: nat)
      requires done == |prior|
      requires Reached(jobs0, events0, id, prior)
      requires cancel.Some? ==> cancel.value >= done
      modifies this`events, store
      ensures Steady(old(store.order), old(store.queue), old(store.taken))
      ensures m <= 3 && Reached(jobs0, events0, id, prior + SimBlock(id, package, i)[..m])
      ensures escaped ==> cancel == Some(done + m)
      ensures !escaped ==> m == 3 && (cancel.Some? ==> cancel.value >= done + 3)
    {
      var line := SimLine(package, i + 1);
      ghost var block := SimBlock(id, package, i);
      assert prior + block[..0] == prior;
      // asyncio.sleep and get_job
      if cancel == Some(done) {
        return true, 0;
      }
      LogLine(id, line, jobs0, events0, prior);
      SnocBlock(prior, block, 0);

      if cancel == Some(done + 1) {
        return true, 1;
      }
      Announce(id, Stdout(id, line), jobs0, events0, prior + block[..1]);
      SnocBlock(prior, block, 1);

      if cancel == Some(done + 2) {
        return true, 2;
      }
      Announce(id, Progress(id, (i + 1) * 20), jobs0, events0, prior + block[..2]);
      SnocBlock(prior, block, 2);
      return false, 3;
    }

    /** The subprocess branch of `_process_job`, after the header. */
    method RealInstall(job: Job, run: Run, ghost jobs0: map<JobId, Job>, ghost events0: seq<Event>, ghost header: seq<Step>)
      returns (escaped: bool)
      requires !simulate
      requires header == Header(job.jobId, job.package, run.startedAt)
      requires Reached(jobs0, events0, job.jobId, header)
      requires run.cancel.Some? ==> run.cancel.value >= |header|
      modifies this`events, store
      ensures Steady(old(store.order), old(store.queue), old(store.taken))
      ensures Reached(jobs0, events0, job.jobId, Executed(simulate, job.jobId, job.package, run))
      ensures escaped == Escapes(simulate, job.jobId, job.package, run)
    {
      var id, t1 := job.jobId, run.finishedAt;
      ghost var plan := Plan(simulate, id, job.package, run);
      ghost var body := RealBody(id, Decoded(run.output.readlines));
      ghost var footer := RealFooter(id, run.output.rc, t1);

      // create_subprocess_shell runs before the `try`
      if run.cancel == Some(2) {
        CutOutcome(simulate, id, job.package, run, header, [Spawn] + body + footer);
        return true;
      }
      StepTaken(jobs0, id, header, Spawn);
      ghost var prefix := header + [Spawn];

      var stopped, done;
      ghost var taken, left;
      stopped, done, taken, left := ReadOutput(id, run.output.readlines, run.cancel, t1, jobs0, events0, prefix);
      ghost var steps := prefix + taken;
      ghost var rest := left + footer;
      Assoc4(prefix, taken, left, footer);
      if stopped {
        CutOutcome(simulate, id, job.package, run, steps, rest);
        return false;
      }
      Unit(footer);
      var cancelled := FinishReal(id, run.output.rc, run.cancel, done, t1, jobs0, events0, steps);
      if cancelled {
        Regroup(plan, steps, footer, [], 1);
        CutOutcome(simulate, id, job.package, run, steps + footer[..1], footer[1..] + []);
        return false;
      }
      assert steps + footer == plan;
      return false;
    }

    /**
     * The end of the subprocess branch after the steps `prior`: the final
     * update from the return code, then `job_finished`; a cancellation
     * between the two runs the handler, which overwrites the outcome.
     */
    method FinishReal(id: JobId, rc: int, cancel: Option<nat>, done: nat, t1: nat,
                      ghost jobs0: map<JobId, Job>, ghost events0: seq<Event>, ghost prior: seq<Step>)
      returns (cancelled: bool)
      requires done == |prior|
      requires Reached(jobs0, events0, id, prior)
      requires cancel.Some? ==> cancel.value > done
      modifies this`events, store
      ensures Steady(old(store.order), old(store.queue), old(store.taken))
      ensures cancelled == (cancel == Some(done + 1))
      ensures cancelled ==> Reached(jobs0, events0, id, prior + RealFooter(id, rc, t1)[..1] + CancelHandler(id, t1))
      ensures !cancelled ==> Reached(jobs0, events0, id, prior + RealFooter(id, rc, t1))
    {
      ghost var footer := RealFooter(id, rc, t1);
      var success := rc == 0;
      assert prior + footer[..0] == prior;
      SetFields(id, DoneFields(if success then Finished else Failed, t1, rc), jobs0, events0, prior);
      SnocBlock(prior, footer, 0);

      if cancel == Some(done + 1) {
        HandleCancel(id, t1, jobs0, events0, prior + footer[..1]);
        return true;
      }
      Announce(id, JobFinished(id, success, rc), jobs0, events0, prior + footer[..1]);
      SnocBlock(prior, footer, 1);
      assert footer[..2] == footer;
      return false;
    }

    /**
     * The `try` of the subprocess branch: read `readlines` up to the
     * first empty line, logging and publishing each decoded line. The
     * steps `taken` are a prefix of the output steps and `left` the
     * rest; either the cancellation arrived right after them and the
     * handler ran, or every line was read.
     */
    method ReadOutput(id: JobId, readlines: seq<string>, cancel: Option<nat>, t1: nat,
                      ghost jobs0: map<JobId, Job>, ghost events0: seq<Event>, ghost prefix: seq<Step>)
      returns (stopped: bool, done: nat, ghost taken: seq<Step>, ghost left: seq<Step>)
      requires |prefix| == TryStart
      requires Reached(jobs0, events0, id, prefix)
      requires cancel.Some? ==> cancel.value >= |prefix|
      modifies this`events, store
      ensures Steady(old(store.order), old(store.queue), old(store.taken))
      ensures done == |prefix| + |taken| && RealBody(id, Decoded(readlines)) == taken + left
      ensures stopped ==> cancel == Some(done) && Reached(jobs0, events0, id, prefix + taken + CancelHandler(id, t1))
      ensures !stopped ==> left == [] && Reached(jobs0, events0, id, prefix + taken)
      ensures !stopped ==> cancel.Some? ==> cancel.value > done
    {
      ghost var order0, queue0, taken0 := store.order, store.queue, store.taken;
      ghost var lines := Decoded(readlines);
      ghost var whole := RealBody(id, lines);
      taken, left := [], whole;
      done := 3;
      Unit(prefix);
      Unit(whole);
      var k := 0;
      while true
        invariant k <= |readlines| && FirstEmptyFrom(readlines, k) == FirstEmptyFrom(readlines, 0)
        invariant done == |prefix| + |taken|
        invariant k <= |lines| && left == RealBody(id, lines[k..]) && whole == taken + left
        invariant cancel.Some? ==> cancel.value >= done
        invariant Steady(order0, queue0, taken0)
        invariant Reached(jobs0, events0, id, prefix + taken)
        decreases |readlines| - k
      {
        var eof;
        stopped, eof, done, taken, left := ReadIteration(id, readlines, k, cancel, done, t1, jobs0, events0, prefix,
                                                         whole, taken, left);
        if stopped || eof {
          return;
        }
        k := k + 1;
      }
    }

    /**
     * One turn of the `while True: readline` loop, the lines before read
     * into `taken`: a cancellation before the read runs the handler, an
     * empty read ends the output, and any other line is decoded and emitted.
     */
    method ReadIteration(id: JobId, readlines: seq<string>, k: nat, cancel: Option<nat>, done: nat, t1: nat,
                         ghost jobs0: map<JobId, Job>, ghost events0: seq<Event>, ghost prefix: seq<Step>,
                         ghost whole: seq<Step>, ghost taken: seq<Step>, ghost left: seq<Step>)
      returns (stopped: bool, eof: bool, done': nat, ghost taken': seq<Step>, ghost left': seq<Step>)
      requires k <= |readlines| && FirstEmptyFrom(readlines, k) == FirstEmptyFrom(readlines, 0)
      requires done == |prefix| + |taken|
      requires k <= |Decoded(readlines)| && left == RealBody(id, Decoded(readlines)[k..]) && whole == taken + left
      requires cancel.Some? ==> cancel.value >= done
      requires Reached(jobs0, events0, id, prefix + taken)
      modifies this`events, store
      ensures Steady(old(store.order), old(store.queue), old(store.taken))
      ensures done' == |prefix| + |taken'| && whole == taken' + left'
      ensures stopped ==> cancel == Some(done') && Reached(jobs0, events0, id, prefix + taken' + CancelHandler(id, t1))
      ensures !stopped ==> Reached(jobs0, events0, id, prefix + taken') && (cancel.Some? ==> cancel.value >= done')
      ensures !stopped && eof ==> left' == [] && (cancel.Some? ==> cancel.value > done')
      ensures !stopped && !eof ==> k < |readlines| && FirstEmptyFrom(readlines, k + 1) == FirstEmptyFrom(readlines, 0)
      ensures !stopped && !eof ==> k + 1 <= |Decoded(readlines)| && left' == RealBody(id, Decoded(readlines)[k + 1..])
    {
      // readline, and the get_job before the log update
      if cancel == Some(done) {
        HandleCancel(id, t1, jobs0, events0, prefix + taken);
        return true, false, done, taken, left;
      }
      var line := if k < |readlines| then readlines[k] else "";
      if line == "" {
        ReadEnd(id, readlines, k);
        return false, true, done, taken, left;
      }
      var decoded := Strip(line);
      ReadMore(id, readlines, k);
      ghost var pair, more := LineSteps(id, decoded), RealBody(id, Decoded(readlines)[k + 1..]);
      var m;
      stopped, m := EmitLine(id, decoded, cancel, done, t1, jobs0, events0, prefix + taken);
      Regroup(whole, taken, pair, more, m);
      Assoc(prefix, taken, pair[..m]);
      return stopped, false, done + m, taken + pair[..m], pair[m..] + more;
    }

    /**
     * One decoded line after the steps `prior`: its log update and its
     * `stdout` message; a cancellation between the two runs the handler.
     */
    method EmitLine(id: JobId, line: string, cancel: Option<nat>, done: nat, t1: nat,
                    ghost jobs0: map<JobId, Job>, ghost events0: seq<Event>, ghost prior: seq<Step>)
      returns (stopped: bool, m: nat)
      requires done == |prior|
      requires Reached(jobs0, events0, id, prior)
      requires cancel.Some? ==> cancel.value > done
      modifies this`events, store
      ensures Steady(old(store.order), old(store.queue), old(store.taken))
      ensures stopped ==> m == 1 && cancel == Some(done + 1)
      ensures stopped ==> Reached(jobs0, events0, id, prior + LineSteps(id, line)[..1] + CancelHandler(id, t1))
      ensures !stopped ==> m == 2 && Reached(jobs0, events0, id, prior + LineSteps(id, line)[..2])
      ensures !stopped ==> cancel.Some? ==> cancel.value >= done + 2
    {
      ghost var pair := LineSteps(id, line);
      assert prior + pair[..0] == prior;
      LogLine(id, line, jobs0, events0, prior);
      SnocBlock(prior, pair, 0);

      if cancel == Some(done + 1) {
        HandleCancel(id, t1, jobs0, events0, prior + pair[..1]);
        return true, 1;
      }
      Announce(id, Stdout(id, line), jobs0, events0, prior + pair[..1]);
      SnocBlock(prior, pair, 1);
      return false, 2;
    }
  }

  // ---------------------------------------------------------------------
  // `_run_loop`: one job after another

  /** What processing one job does: the steps it performs, and whether the loop ends after it. */
  datatype Turn = Turn(steps: seq<Step>, stops: bool)

  /**
   * `_process_job` as a turn of the loop. A cancellation comes only from
   * `stop()`, which sets the shutdown flag first: whether it escapes or
   * the handler catches it, the loop ends after this job.
   */
  function ProcessTurn(simulate: bool): (JobId, string, Run) -> Turn
  {
    (id, package, run) => Turn(Executed(simulate, id, package, run), run.cancel.Some?)
  }

  /** The store and the bus after some turns of the loop; `stopped` once a turn ended the loop. */
  datatype Outcome = Outcome(jobs: map<JobId, Job>, events: seq<Event>, processed: nat, stopped: bool)

  /**
   * The loop over the queue `ids`, one run per turn, each turn processing
   * the head job with `turn`, until the runs are used up (shutdown) or a
   * turn stops the loop.
   */
  function DrainWith(turn: (JobId, string, Run) -> Turn, jobs: map<JobId, Job>, ids: seq<JobId>, runs: seq<Run>): (o: Outcome)
    requires |runs| <= |ids|
    ensures o.processed <= |runs|
    ensures !o.stopped ==> o.processed == |runs|
    decreases |runs|
  {
    if runs == [] then Outcome(jobs, [], 0, false)
    else
      var o := DrainWith(turn, jobs, ids, runs[..|runs| - 1]);
      if o.stopped then o
      else
        var id := ids[o.processed];
        var t := turn(id, PackageOf(o.jobs, id), runs[|runs| - 1]);
        Outcome(ApplySteps(o.jobs, id, t.steps), o.events + Published(t.steps), o.processed + 1, t.stops)
  }

  /** The package of the dequeued record. */
  function PackageOf(jobs: map<JobId, Job>, id: JobId): string
  {
    if id in jobs then jobs[id].package else ""
  }

  /** `_run_loop` with `_process_job` as its turn. */
  function Drain(simulate: bool, jobs: map<JobId, Job>, ids: seq<JobId>, runs: seq<Run>): Outcome
    requires |runs| <= |ids|
  {
    DrainWith(ProcessTurn(simulate), jobs, ids, runs)
  }

  /** A turn that did not stop is followed by the next one. */
  lemma DrainNext(turn: (JobId, string, Run) -> Turn, jobs: map<JobId, Job>, ids: seq<JobId>, runs: seq<Run>, i: nat)
    requires i < |runs| <= |ids|
    requires !DrainWith(turn, jobs, ids, runs[..i]).stopped
    ensures var o := DrainWith(turn, jobs, ids, runs[..i]);
      var t := turn(ids[i], PackageOf(o.jobs, ids[i]), runs[i]);
      DrainWith(turn, jobs, ids, runs[..i + 1])
        == Outcome(ApplySteps(o.jobs, ids[i], t.steps), o.events + Published(t.steps), i + 1, t.stops)
  {
    assert runs[..i + 1][..i] == runs[..i];
  }

  /** One turn of `_run_loop`: the head job, as dequeued, processed under the next run. */
  lemma DrainTurn(simulate: bool, jobs: map<JobId, Job>, ids: seq<JobId>, runs: seq<Run>, i: nat, job: Job,
                  steps: seq<Step>, stop: bool, events0: seq<Event>, before: map<JobId, Job>, after: map<JobId, Job>,
                  eventsBefore: seq<Event>, eventsAfter: seq<Event>)
    requires i < |runs| <= |ids|
    requires !Drain(simulate, jobs, ids, runs[..i]).stopped
    requires before == Drain(simulate, jobs, ids, runs[..i]).jobs
    requires eventsBefore == events0 + Drain(simulate, jobs, ids, runs[..i]).events
    requires ids[i] in before && job == before[ids[i]] && job.jobId == ids[i]
    requires steps == Executed(simulate, job.jobId, job.package, runs[i])
    requires stop == runs[i].cancel.Some?
    requires after == ApplySteps(before, job.jobId, steps)
    requires eventsAfter == eventsBefore + Published(steps)
    ensures var next := Drain(simulate, jobs, ids, runs[..i + 1]);
      && after == next.jobs
      && eventsAfter == events0 + next.events
      && next.processed == i + 1
      && next.stopped == stop
  {
    DrainSteps(simulate, jobs, ids, runs, i, job, steps, stop);
    Assoc(events0, Drain(simulate, jobs, ids, runs[..i]).events, Published(steps));
  }

  /** The step of `DrainTurn`, over the drain's own outcome. */
  lemma DrainSteps(simulate: bool, jobs: map<JobId, Job>, ids: seq<JobId>, runs: seq<Run>, i: nat,
                   job: Job, steps: seq<Step>, stop: bool)
    requires i < |runs| <= |ids|
    requires !Drain(simulate, jobs, ids, runs[..i]).stopped
    requires var o := Drain(simulate, jobs, ids, runs[..i]);
      ids[i] in o.jobs && job == o.jobs[ids[i]] && job.jobId == ids[i]
    requires steps == Executed(simulate, job.jobId, job.package, runs[i])
    requires stop == runs[i].cancel.Some?
    ensures var o, next := Drain(simulate, jobs, ids, runs[..i]), Drain(simulate, jobs, ids, runs[..i + 1]);
      && next.jobs == ApplySteps(o.jobs, job.jobId, steps)
      && next.events == o.events + Published(steps)
      && next.processed == i + 1
      && next.stopped == stop
  {
    DrainNext(ProcessTurn(simulate), jobs, ids, runs, i);
  }

  /** Once a turn has ended the loop, the remaining runs change nothing. */
  lemma {:induction false} DrainStopped(turn: (JobId, string, Run) -> Turn, jobs: map<JobId, Job>, ids: seq<JobId>,
                                        runs: seq<Run>, n: nat)
    requires n <= |runs| <= |ids|
    requires DrainWith(turn, jobs, ids, runs[..n]).stopped
    ensures DrainWith(turn, jobs, ids, runs) == DrainWith(turn, jobs, ids, runs[..n])
    decreases |runs| - n
  {
    if n == |runs| {
      assert runs[..n] == runs;
    } else {
      var init := runs[..|runs| - 1];
      assert init[..n] == runs[..n];
      DrainStopped(turn, jobs, ids, init, n);
    }
  }

  /** When no turn ends the loop, every run is used and the loop never stops early. */
  lemma {:induction false} DrainWithAll(turn: (JobId, string, Run) -> Turn, jobs: map<JobId, Job>, ids: seq<JobId>, runs: seq<Run>)
    requires |runs| <= |ids|
    requires forall k, id, package :: 0 <= k < |runs| ==> !turn(id, package, runs[k]).stops
    ensures !DrainWith(turn, jobs, ids, runs).stopped
    decreases |runs|
  {
    if runs != [] {
      var init := runs[..|runs| - 1];
      assert forall k :: 0 <= k < |init| ==> init[k] == runs[k];
      DrainWithAll(turn, jobs, ids, init);
    }
  }

  /** Without cancellations the loop processes one job per run, never stopping early. */
  lemma DrainAll(simulate: bool, jobs: map<JobId, Job>, ids: seq<JobId>, runs: seq<Run>)
    requires |runs| <= |ids|
    requires forall k :: 0 <= k < |runs| ==> runs[k].cancel.None?
    ensures !Drain(simulate, jobs, ids, runs).stopped
    ensures Drain(simulate, jobs, ids, runs).processed == |runs|
  {
    DrainWithAll(ProcessTurn(simulate), jobs, ids, runs);
  }

  /** The first turn that ends the loop is the last one processed. */
  lemma DrainWithFirstStop(turn: (JobId, string, Run) -> Turn, jobs: map<JobId, Job>, ids: seq<JobId>,
                           runs: seq<Run>, k: nat)
    requires k < |runs| <= |ids|
    requires forall j, id, package :: 0 <= j < k ==> !turn(id, package, runs[j]).stops
    requires forall id, package :: turn(id, package, runs[k]).stops
    ensures DrainWith(turn, jobs, ids, runs).stopped
    ensures DrainWith(turn, jobs, ids, runs).processed == k + 1
  {
    var init := runs[..k];
    assert forall j :: 0 <= j < |init| ==> init[j] == runs[j];
    DrainWithAll(turn, jobs, ids, init);
    DrainNext(turn, jobs, ids, runs, k);
    DrainStopped(turn, jobs, ids, runs, k + 1);
  }

  /**
   * The first cancelled run is the last: its job is processed, and every
   * job queued after it stays unprocessed, whatever the later runs hold.
   */
  lemma DrainFirstCancel(simulate: bool, jobs: map<JobId, Job>, ids: seq<JobId>, runs: seq<Run>, k: nat)
    requires k < |runs| <= |ids|
    requires forall j :: 0 <= j < k ==> runs[j].cancel.None?
    requires runs[k].cancel.Some?
    ensures Drain(simulate, jobs, ids, runs).stopped
    ensures Drain(simulate, jobs, ids, runs).processed == k + 1
    ensures Drain(simulate, jobs, ids, runs) == Drain(simulate, jobs, ids, runs[..k + 1])
  {
    DrainWithFirstStop(ProcessTurn(simulate), jobs, ids, runs, k);
    DrainNext(ProcessTurn(simulate), jobs, ids, runs, k) by {
      var init := runs[..k];
      assert forall j :: 0 <= j < |init| ==> init[j] == runs[j];
      DrainWithAll(ProcessTurn(simulate), jobs, ids, init);
    }
    DrainStopped(ProcessTurn(simulate), jobs, ids, runs, k + 1);
  }

  /**
   * The loop runs until the first cancelled run, that run included: every
   * run before the last one processed is uncancelled, and the loop stopped
   * early exactly when the last one processed was cancelled.
   */
  lemma {:induction false} DrainWithCancelled(turn: (JobId, string, Run) -> Turn, jobs: map<JobId, Job>, ids: seq<JobId>, runs: seq<Run>)
    requires |runs| <= |ids|
    requires forall id, package, r :: turn(id, package, r).stops == r.cancel.Some?
    ensures var o := DrainWith(turn, jobs, ids, runs);
      && (forall k :: 0 <= k < o.processed - 1 ==> runs[k].cancel.None?)
      && (o.stopped <==> 0 < o.processed && runs[o.processed - 1].cancel.Some?)
      && (!o.stopped ==> forall k :: 0 <= k < |runs| ==> runs[k].cancel.None?)
    decreases |runs|
  {
    if runs != [] {
      var init := runs[..|runs| - 1];
      DrainWithCancelled(turn, jobs, ids, init);
      assert forall k :: 0 <= k < |init| ==> init[k] == runs[k];
      if !DrainWith(turn, jobs, ids, init).stopped {
        assert runs[..|init|] == init;
        DrainNext(turn, jobs, ids, runs, |init|);
      }
    }
  }

  /** The loop removes and adds no record. */
  lemma {:induction false} DrainKeys(turn: (JobId, string, Run) -> Turn, jobs: map<JobId, Job>, ids: seq<JobId>, runs: seq<Run>)
    requires |runs| <= |ids|
    ensures DrainWith(turn, jobs, ids, runs).jobs.Keys == jobs.Keys
    decreases |runs|
  {
    if runs != [] {
      var prev := DrainWith(turn, jobs, ids, runs[..|runs| - 1]);
      DrainKeys(turn, jobs, ids, runs[..|runs| - 1]);
      if !prev.stopped {
        var id := ids[prev.processed];
        StepsKeepIdentity(prev.jobs, id, turn(id, PackageOf(prev.jobs, id), runs[|runs| - 1]).steps);
      }
    }
  }

  /** A job that has not been dequeued keeps its record. */
  lemma {:induction false} DrainUntouched(turn: (JobId, string, Run) -> Turn, jobs: map<JobId, Job>, ids: seq<JobId>,
                                          runs: seq<Run>, key: JobId)
    requires |runs| <= |ids| && key in jobs
    requires key !in ids[..DrainWith(turn, jobs, ids, runs).processed]
    ensures key in DrainWith(turn, jobs, ids, runs).jobs
    ensures DrainWith(turn, jobs, ids, runs).jobs[key] == jobs[key]
    decreases |runs|
  {
    if runs != [] {
      var init := runs[..|runs| - 1];
      var prev := DrainWith(turn, jobs, ids, init);
      var n := prev.processed;
      if !prev.stopped {
        assert ids[..n + 1] == ids[..n] + [ids[n]];
      }
      DrainUntouched(turn, jobs, ids, init, key);
      if !prev.stopped {
        var id := ids[n];
        StepsKeepIdentity(prev.jobs, id, turn(id, PackageOf(prev.jobs, id), runs[|runs| - 1]).steps);
      }
    }
  }

  /** The record job `id` ends with when only its own turn, under `run`, is applied to `jobs`. */
  function OwnResult(turn: (JobId, string, Run) -> Turn, jobs: map<JobId, Job>, id: JobId, run: Run): Job
    requires id in jobs
  {
    StepsKeepIdentity(jobs, id, turn(id, jobs[id].package, run).steps);
    ApplySteps(jobs, id, turn(id, jobs[id].package, run).steps)[id]
  }

  /** The `k`-th job dequeued ends with what its own turn makes of its original record. */
  lemma {:induction false} DrainOwn(turn: (JobId, string, Run) -> Turn, jobs: map<JobId, Job>, ids: seq<JobId>,
                                    runs: seq<Run>, k: nat)
    requires |runs| <= |ids|
    requires forall i, j :: 0 <= i < j < |ids| ==> ids[i] != ids[j]
    requires forall i :: 0 <= i < |ids| ==> ids[i] in jobs
    requires k < DrainWith(turn, jobs, ids, runs).processed
    ensures ids[k] in DrainWith(turn, jobs, ids, runs).jobs
    ensures DrainWith(turn, jobs, ids, runs).jobs[ids[k]] == OwnResult(turn, jobs, ids[k], runs[k])
    decreases |runs|
  {
    var init := runs[..|runs| - 1];
    var prev := DrainWith(turn, jobs, ids, init);
    var n := prev.processed;
    if prev.stopped || k < n {
      assert init[k] == runs[k];
      DrainOwn(turn, jobs, ids, init, k);
      if !prev.stopped {
        var id := ids[n];
        StepsKeepIdentity(prev.jobs, id, turn(id, PackageOf(prev.jobs, id), runs[|runs| - 1]).steps);
      }
    } else {
      var id := ids[n];
      assert runs[n] == runs[|runs| - 1];
      assert id !in ids[..n] by {
        forall i | 0 <= i < n ensures ids[..n][i] != id {
          assert ids[..n][i] == ids[i];
        }
      }
      DrainUntouched(turn, jobs, ids, init, id);
      StepsLocal(prev.jobs, jobs, id, turn(id, jobs[id].package, runs[n]).steps);
    }
  }

  /**
   * Each dequeued job is processed once, on its own record: the record of
   * the `k`-th id is what that job's own steps make of its original, and
   * the records of jobs not yet dequeued are untouched.
   */
  lemma DrainLocal(simulate: bool, jobs: map<JobId, Job>, ids: seq<JobId>, runs: seq<Run>)
    requires |runs| <= |ids|
    requires forall i, j :: 0 <= i < j < |ids| ==> ids[i] != ids[j]
    requires forall i :: 0 <= i < |ids| ==> ids[i] in jobs
    ensures var o := Drain(simulate, jobs, ids, runs);
      && o.jobs.Keys == jobs.Keys
      && (forall k :: 0 <= k < o.processed ==>
            ids[k] in o.jobs && o.jobs[ids[k]] == OwnResult(ProcessTurn(simulate), jobs, ids[k], runs[k]))
      && (forall key :: key in jobs && key !in ids[..o.processed] ==> key in o.jobs && o.jobs[key] == jobs[key])
  {
    var turn := ProcessTurn(simulate);
    var o := DrainWith(turn, jobs, ids, runs);
    DrainKeys(turn, jobs, ids, runs);
    forall k | 0 <= k < o.processed
      ensures ids[k] in o.jobs && o.jobs[ids[k]] == OwnResult(turn, jobs, ids[k], runs[k])
    {
      DrainOwn(turn, jobs, ids, runs, k);
    }
    forall key | key in jobs && key !in ids[..o.processed] ensures key in o.jobs && o.jobs[key] == jobs[key] {
      DrainUntouched(turn, jobs, ids, runs, key);
    }
  }

  /** The ids of the `job_started` events, in order. */
  function Started(evs: seq<Event>): seq<JobId>
    decreases |evs|
  {
    if evs == [] then [] else (if evs[0].JobStarted? then [evs[0].jobId] else []) + Started(evs[1..])
  }

  lemma {:induction false} StartedConcat(a: seq<Event>, b: seq<Event>)
    ensures Started(a + b) == Started(a) + Started(b)
    decreases |a|
  {
    if a != [] {
      assert (a + b)[0] == a[0] && (a + b)[1..] == a[1..] + b;
      StartedConcat(a[1..], b);
    } else {
      assert a + b == b;
    }
  }

  lemma {:induction false} NoneStarted(evs: seq<Event>)
    requires forall i :: 0 <= i < |evs| ==> !evs[i].JobStarted?
    ensures Started(evs) == []
    decreases |evs|
  {
    if evs != [] {
      assert forall i :: 0 <= i < |evs[1..]| ==> evs[1..][i] == evs[i + 1];
      NoneStarted(evs[1..]);
    }
  }

  /** A well-formed trace that begins with `job_started` starts exactly one job: its own. */
  lemma StartedOnce(id: JobId, evs: seq<Event>)
    requires WellFormedTrace(id, evs) && evs != [] && evs[0].JobStarted?
    ensures Started(evs) == [id]
  {
    NoneStarted(evs[1..]);
  }

  /** Under `run`, a turn publishes exactly one `job_started`, for the job it processes. */
  ghost predicate StartsOwn(turn: (JobId, string, Run) -> Turn, run: Run)
  {
    forall id, package :: Started(Published(turn(id, package, run).steps)) == [id]
  }

  /** A turn that starts its own job adds that job, and only it, to the started ids. */
  lemma StartedStep(turn: (JobId, string, Run) -> Turn, events: seq<Event>, id: JobId, package: string, run: Run)
    requires StartsOwn(turn, run)
    ensures Started(events + Published(turn(id, package, run).steps)) == Started(events) + [id]
  {
    StartedConcat(events, Published(turn(id, package, run).steps));
  }

  /** When every turn starts exactly its own job, jobs start in queue order. */
  lemma {:induction false} DrainWithFifo(turn: (JobId, string, Run) -> Turn, jobs: map<JobId, Job>, ids: seq<JobId>, runs: seq<Run>)
    requires |runs| <= |ids|
    requires forall run :: run in runs ==> StartsOwn(turn, run)
    ensures var o := DrainWith(turn, jobs, ids, runs);
      Started(o.events) == ids[..o.processed]
    decreases |runs|
  {
    if runs != [] {
      var init := runs[..|runs| - 1];
      var prev := DrainWith(turn, jobs, ids, init);
      DrainWithFifo(turn, jobs, ids, init);
      if !prev.stopped {
        var n := prev.processed;
        var id := ids[n];
        StartedStep(turn, prev.events, id, PackageOf(prev.jobs, id), runs[|runs| - 1]);
        assert ids[..n + 1] == ids[..n] + [id];
      }
    }
  }

  /** A run not cancelled during the header publishes exactly one `job_started`: its own job's. */
  lemma StartsOwnJob(simulate: bool, id: JobId, package: string, run: Run)
    requires run.cancel != Some(0) && run.cancel != Some(1)
    ensures Started(Published(Executed(simulate, id, package, run))) == [id]
  {
    TraceShape(simulate, id, package, run);
    StartedOnce(id, Published(Executed(simulate, id, package, run)));
  }

  /**
   * When no cancellation falls before a `job_started` broadcast, the jobs
   * start in queue order, one `job_started` per dequeued job.
   */
  lemma DrainFifo(simulate: bool, jobs: map<JobId, Job>, ids: seq<JobId>, runs: seq<Run>)
    requires |runs| <= |ids|
    requires forall k :: 0 <= k < |runs| ==> runs[k].cancel != Some(0) && runs[k].cancel != Some(1)
    ensures var o := Drain(simulate, jobs, ids, runs);
      Started(o.events) == ids[..o.processed]
  {
    var turn := ProcessTurn(simulate);
    forall run | run in runs ensures StartsOwn(turn, run) {
      forall id, package ensures Started(Published(turn(id, package, run).steps)) == [id] {
        StartsOwnJob(simulate, id, package, run);
      }
    }
    DrainWithFifo(turn, jobs, ids, runs);
  }
}
