/**
 * The install-job record and the in-memory job store: a table from job id
 * to record, the table's insertion order, and a FIFO queue of ids.
 * Every store operation runs under one lock and is modelled as atomic.
 */
module JobStore {
  import opened Types

  type JobId = string

  /** The `InstallJob` record; `log` starts empty, the optional fields unset. */
  datatype Job = Job(
    jobId: JobId,
    package: string,
    status: Status,
    createdAt: nat,
    startedAt: Option<nat>,
    finishedAt: Option<nat>,
    exitCode: Option<int>,
    log: seq<string>)

  /** A freshly created record, as `enqueue` builds it. */
  function NewJob(id: JobId, package: string, now: nat): Job
  {
    Job(id, package, Queued, now, None, None, None, [])
  }

  /**
   * One keyword argument of `update_job_status`. The core only ever passes
   * these five attributes; `job_id`, `package` and `created_at` are never
   * named, so they cannot be written.
   */
  datatype Assign =
    | SetStatus(status: Status)
    | SetStartedAt(startedAt: nat)
    | SetFinishedAt(finishedAt: nat)
    | SetExitCode(exitCode: int)
    | SetLog(log: seq<string>)

  datatype Key = StatusKey | StartedAtKey | FinishedAtKey | ExitCodeKey | LogKey

  function KeyOf(a: Assign): Key
  {
    match a
    case SetStatus(_) => StatusKey
    case SetStartedAt(_) => StartedAtKey
    case SetFinishedAt(_) => FinishedAtKey
    case SetExitCode(_) => ExitCodeKey
    case SetLog(_) => LogKey
  }

  /**
   * The attribute `k` of `j`, in the form an assignment of it takes; `None`
   * while an optional attribute is unset.
   */
  function Read(j: Job, k: Key): Option<Assign>
  {
    match k
    case StatusKey => Some(SetStatus(j.status))
    case StartedAtKey => if j.startedAt.Some? then Some(SetStartedAt(j.startedAt.value)) else None
    case FinishedAtKey => if j.finishedAt.Some? then Some(SetFinishedAt(j.finishedAt.value)) else None
    case ExitCodeKey => if j.exitCode.Some? then Some(SetExitCode(j.exitCode.value)) else None
    case LogKey => Some(SetLog(j.log))
  }

  /** `setattr(job, k, v)` for one keyword argument. */
  function Set(j: Job, a: Assign): Job
  {
    match a
    case SetStatus(s) => j.(status := s)
    case SetStartedAt(t) => j.(startedAt := Some(t))
    case SetFinishedAt(t) => j.(finishedAt := Some(t))
    case SetExitCode(c) => j.(exitCode := Some(c))
    case SetLog(l) => j.(log := l)
  }

  /**
   * The record after the `setattr` loop has run over all of `fs`, in order;
   * whatever is assigned, the job keeps its id, package and creation time.
   */
  function Assigned(j: Job, fs: seq<Assign>): (r: Job)
    ensures r.jobId == j.jobId && r.package == j.package && r.createdAt == j.createdAt
    decreases |fs|
  {
    if fs == [] then j else Set(Assigned(j, fs[..|fs| - 1]), fs[|fs| - 1])
  }

  /** Keyword arguments never repeat a name. */
  predicate DistinctKeys(fs: seq<Assign>)
  {
    forall i, j :: 0 <= i < j < |fs| ==> KeyOf(fs[i]) != KeyOf(fs[j])
  }

  /** Dropping the last keyword argument keeps the names distinct. */
  lemma DistinctInit(fs: seq<Assign>)
    requires fs != [] && DistinctKeys(fs)
    ensures DistinctKeys(fs[..|fs| - 1])
  {
    var init := fs[..|fs| - 1];
    forall a, b | 0 <= a < b < |init| ensures KeyOf(init[a]) != KeyOf(init[b]) {
      assert init[a] == fs[a] && init[b] == fs[b];
    }
  }

  /**
   * A partial update writes exactly the named attributes: each named one
   * takes the given value and every other one keeps its value.
   */
  lemma {:induction false} AssignedExactly(j: Job, fs: seq<Assign>)
    requires DistinctKeys(fs)
    ensures forall i :: 0 <= i < |fs| ==> Read(Assigned(j, fs), KeyOf(fs[i])) == Some(fs[i])
    ensures forall k :: (forall i :: 0 <= i < |fs| ==> KeyOf(fs[i]) != k) ==>
              Read(Assigned(j, fs), k) == Read(j, k)
  {
    if fs != [] {
      var init := fs[..|fs| - 1];
      var last := fs[|fs| - 1];
      DistinctInit(fs);
      AssignedExactly(j, init);
      var r := Assigned(j, fs);
      assert r == Set(Assigned(j, init), last);
      forall i | 0 <= i < |fs| ensures Read(r, KeyOf(fs[i])) == Some(fs[i]) {
        if i < |fs| - 1 {
          assert init[i] == fs[i];
          assert KeyOf(fs[i]) != KeyOf(last);
        }
      }
      forall k | forall i :: 0 <= i < |fs| ==> KeyOf(fs[i]) != k
        ensures Read(r, k) == Read(j, k)
      {
        assert KeyOf(last) != k;
        forall i | 0 <= i < |init| ensures KeyOf(init[i]) != k {
          assert init[i] == fs[i];
        }
      }
    }
  }

  /** The whole table after `update_job_status(id, **fs)`. */
  function Updated(jobs: map<JobId, Job>, id: JobId, fs: seq<Assign>): (r: map<JobId, Job>)
    ensures r.Keys == jobs.Keys
    ensures id !in jobs ==> r == jobs
    ensures id in jobs ==> r[id] == Assigned(jobs[id], fs)
    ensures forall k :: k in jobs && k != id ==> r[k] == jobs[k]
  {
    if id in jobs then jobs[id := Assigned(jobs[id], fs)] else jobs
  }

  /** A finite set of strings always misses some string: one longer than all of them. */
  ghost function MaxLength(s: set<string>): (n: nat)
    ensures forall x :: x in s ==> |x| <= n
    decreases |s|
  {
    if s == {} then 0
    else
      var y :| y in s;
      var m := MaxLength(s - {y});
      if |y| < m then m else |y|
  }

  lemma FreshIdExists(s: set<string>)
    ensures exists x: string :: x !in s
  {
    var x := seq(MaxLength(s) + 1, _ => 'x');
    assert x !in s;
  }

  class JobQueue {
    /** `_jobs`: every record ever created, by id. */
    var jobs: map<JobId, Job>
    /** The insertion order of `_jobs` (a Python dict keeps it). */
    var order: seq<JobId>
    /** `_queue`: ids waiting for a worker, head first. */
    var queue: seq<JobId>
    /** How many ids have been taken off the queue so far. */
    ghost var taken: nat

    /** The store's fields are consistent with one another. */
    ghost predicate Valid()
      reads this
    {
      Consistent(jobs, order, queue, taken)
    }

    constructor ()
      ensures Valid()
      ensures jobs == map[] && order == [] && queue == []
    {
      jobs, order, queue := map[], [], [];
      taken := 0;
    }

    /**
     * `enqueue`: a new `queued` record under a fresh id, appended to the
     * table and to the queue tail; every other record stays as it was.
     */
    method Enqueue(package: string, now: nat) returns (job: Job)
      requires Valid()
      modifies this
      ensures Valid()
      ensures job.jobId !in old(jobs)
      ensures job == NewJob(job.jobId, package, now)
      ensures jobs == old(jobs)[job.jobId := job]
      ensures order == old(order) + [job.jobId]
      ensures queue == old(queue) + [job.jobId]
      ensures taken == old(taken)
    {
      FreshIdExists(jobs.Keys);
      var id: JobId :| id !in jobs.Keys;
      job := NewJob(id, package, now);
      jobs := jobs[id := job];
      order := order + [id];
      queue := queue + [id];
    }

    /** `get_job`: the stored record, or `None` for an unknown id. */
    function GetJob(id: JobId): (r: Option<Job>)
      reads this
      ensures r.Some? <==> id in jobs
      ensures r.Some? ==> r.value == jobs[id]
    {
      if id in jobs then Some(jobs[id]) else None
    }

    /**
     * `dequeue` on a non-empty queue (an empty one blocks the caller):
     * takes the head id off the queue and returns its record, which always
     * exists. The table does not change.
     */
    method Dequeue() returns (job: Option<Job>)
      requires Valid()
      requires queue != []
      modifies this
      ensures Valid()
      ensures queue == old(queue)[1..]
      ensures jobs == old(jobs) && order == old(order)
      ensures taken == old(taken) + 1
      ensures old(queue)[0] in jobs
      ensures job == Some(jobs[old(queue)[0]])
    {
      var id := queue[0];
      queue := queue[1..];
      taken := taken + 1;
      assert id == order[taken - 1];
      job := GetJob(id);
    }

    /** `list_jobs`: one record per stored job, in insertion order. */
    function ListJobs(): (r: seq<Job>)
      reads this
      requires Valid()
      ensures |r| == |order| == |jobs|
      ensures forall i :: 0 <= i < |r| ==> r[i] == jobs[order[i]]
      ensures forall k :: k in jobs ==> jobs[k] in r
    {
      DistinctSize(order, jobs);
      var o, m := order, jobs;
      seq(|o|, i requires 0 <= i < |o| && o[i] in m => m[o[i]])
    }

    /**
     * `update_job_status`: on a known id the keyword arguments are written
     * one after another; an unknown id is silently ignored. No check is
     * made on the status transition.
     */
    method UpdateJobStatus(id: JobId, fields: seq<Assign>)
      modifies this
      ensures old(Valid()) ==> Valid()
      ensures jobs == Updated(old(jobs), id, fields)
      ensures order == old(order) && queue == old(queue) && taken == old(taken)
    {
      var found := GetJob(id);
      if found.None? {
        return;
      }
      var job := found.value;
      for i := 0 to |fields|
        invariant job == Assigned(found.value, fields[..i])
      {
        assert fields[..i + 1][..i] == fields[..i];
        job := Set(job, fields[i]);
      }
      assert fields[..|fields|] == fields;
      jobs := jobs[id := job];
    }
  }

  /**
   * Records are never removed, each is filed under its own id, the ids
   * in `order` are distinct, and the queue is exactly the ids not yet
   * taken, in creation order.
   */
  ghost predicate Consistent(jobs: map<JobId, Job>, order: seq<JobId>, queue: seq<JobId>, taken: nat)
  {
    && (forall i, j :: 0 <= i < j < |order| ==> order[i] != order[j])
    && (forall k :: k in jobs <==> k in order)
    && (forall k :: k in jobs ==> jobs[k].jobId == k)
    && taken <= |order|
    && queue == order[taken..]
  }

  /** Dropping the last id of a duplicate-free order drops exactly that key. */
  lemma DropLast(order: seq<JobId>, jobs: map<JobId, Job>)
    requires order != []
    requires forall i, j :: 0 <= i < j < |order| ==> order[i] != order[j]
    requires forall k :: k in jobs <==> k in order
    ensures var init := order[..|order| - 1];
      && (forall i, j :: 0 <= i < j < |init| ==> init[i] != init[j])
      && (forall k :: k in jobs - {order[|order| - 1]} <==> k in init)
  {
    var last := order[|order| - 1];
    var init := order[..|order| - 1];
    var rest := jobs - {last};
    forall k ensures k in rest <==> k in init {
      if k in rest {
        var i :| 0 <= i < |order| && order[i] == k;
        assert i != |order| - 1;
        assert init[i] == k;
      }
      if k in init {
        var i :| 0 <= i < |init| && init[i] == k;
        assert order[i] == k;
      }
    }
  }

  /** A duplicate-free key order has as many entries as the table has keys. */
  lemma {:induction false} DistinctSize(order: seq<JobId>, jobs: map<JobId, Job>)
    requires forall i, j :: 0 <= i < j < |order| ==> order[i] != order[j]
    requires forall k :: k in jobs <==> k in order
    ensures |order| == |jobs|
  {
    if order == [] {
      assert jobs.Keys == {};
    } else {
      var last := order[|order| - 1];
      var init := order[..|order| - 1];
      var rest := jobs - {last};
      DropLast(order, jobs);
      DistinctSize(init, rest);
      assert jobs.Keys == rest.Keys + {last};
    }
  }
}
