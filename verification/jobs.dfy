/** Jobs in memory, and what they do to the database
    (queue_job/job.py, lines 216-276, 507-587 and 828-873). */
module Jobs {
  import opened JobStates
  import opened JobTable
  import opened Maps
  import opened Scheduler
  import opened Protocol

  /** What the call of the job's function ends with. */
  datatype Raised = Nothing | RetryableJobError | FailedJobError | OperationalError | OtherError

  /** A job in the memory of a worker. `ready` stands for the states of its dependencies, loaded once. */
  class Job {
    const uuid: JobId
    const maxRetries: nat
    const ready: bool
    var state: JobState
    var retry: nat

    constructor Load(uuid: JobId, row: Row, ready: bool)
      ensures this.uuid == uuid && maxRetries == row.maxRetries && this.ready == ready
      ensures state == row.state && retry == row.retry
    {
      this.uuid, maxRetries, this.ready, state, retry := uuid, row.maxRetries, ready, row.state, row.retry;
    }

    method SetStarted()
      modifies this`state
      ensures state == Started
    {
      state := Started;
    }

    method SetDone()
      modifies this`state
      ensures state == Done
    {
      state := Done;
    }

    method SetCancelled()
      modifies this`state
      ensures state == Cancelled
    {
      state := Cancelled;
    }

    method SetFailed()
      modifies this`state
      ensures state == Failed
    {
      state := Failed;
    }

    method SetPending(resetRetry: bool)
      modifies this
      ensures state == (if ready then Pending else WaitDependencies)
      ensures retry == if resetRetry then 0 else old(retry)
    {
      state := if ready then Pending else WaitDependencies;
      if resetRetry {
        retry := 0;
      }
    }

    /** The count goes up before the call; an error that asks not to be counted takes it back, and one
        too many becomes a failure. */
    method Perform(outcome: Outcome) returns (raised: Raised)
      modifies this`retry
      ensures retry == Tries(old(retry), outcome)
      ensures var end := EndOf(old(retry), maxRetries, outcome);
        && (end.Finished? <==> raised == Nothing)
        && (end.Postponed? <==> raised == RetryableJobError || raised == OperationalError)
        && (raised == OperationalError <==> outcome == Conflict)
      ensures retry == if outcome == Retryable(true) then old(retry) else old(retry) + 1
      ensures raised == Nothing <==> outcome == Success
      ensures raised == OtherError <==> outcome == Failure
      ensures raised == FailedJobError <==> outcome == Retryable(false) && maxRetries != 0 && old(retry) + 1 >= maxRetries
      ensures raised == RetryableJobError <==>
        outcome == Retryable(true) || (outcome == Retryable(false) && (maxRetries == 0 || old(retry) + 1 < maxRetries))
    {
      retry := retry + 1;
      match outcome {
        case Success => return Nothing;
        case Conflict => return OperationalError;
        case Failure => return OtherError;
        case Retryable(ignoreRetry) =>
          if ignoreRetry {
            retry := retry - 1;
            return RetryableJobError;
          } else if maxRetries == 0 {
            return RetryableJobError;
          } else if retry >= maxRetries {
            return FailedJobError;
          }
          return RetryableJobError;
      }
    }
  }

  ghost predicate EdgesAdded(batch: Deps, states: map<JobId, JobState>, toCome: set<JobId>) {
    && states.Keys == batch.Keys
    && (forall c <- batch :: c !in batch[c] || c in toCome)
    && forall c <- batch :: states[c] == if c in toCome then Pending else NewState(batch, c)
  }

  lemma ParentsNotDone(batch: Deps, states: map<JobId, JobState>, toCome: set<JobId>, c: JobId)
    requires EdgesAdded(batch, states, toCome) && c in batch && batch[c] <= batch.Keys
    ensures (exists p <- batch[c] :: states[p] != Done) <==> batch[c] != {}
  {
    if batch[c] != {} {
      var p :| p in batch[c];
      assert states[p] != Done;
    }
  }

  /** The jobs of a graph, all new: each edge makes its child wait, since its parent is not done. */
  method StatesOf(batch: Deps) returns (ok: bool, states: map<JobId, JobState>)
    requires forall c <- batch :: batch[c] <= batch.Keys
    ensures ok <==> forall c <- batch :: c !in batch[c]
    ensures ok ==> states.Keys == batch.Keys && forall c <- batch :: states[c] == NewState(batch, c)
  {
    states := map c <- batch :: Pending;
    var toCome := batch.Keys;
    while toCome != {}
      invariant toCome <= batch.Keys && EdgesAdded(batch, states, toCome)
      decreases toCome
    {
      var c :| c in toCome;
      if c in batch[c] {
        return false, states;
      }
      ParentsNotDone(batch, states, toCome, c);
      if exists p <- batch[c] :: states[p] != Done {
        states := states[c := WaitDependencies];
      }
      toCome := toCome - {c};
    }
    ok := true;
  }

  function Created(batch: Deps, states: map<JobId, JobState>, limits: map<JobId, nat>): (rows: Rows)
    requires limits.Keys == batch.Keys && states.Keys == batch.Keys && forall c <- batch :: states[c] == NewState(batch, c)
    ensures rows == NewRows(batch, limits)
  {
    var created: Rows := map c <- batch :: Row(states[c], 0, limits[c], false);
    SameMaps(created, NewRows(batch, limits));
    created
  }

  /** A dependent of `j` that waits, with all its dependencies in the table done, is pending now; any other row is as it
      was. */
  predicate WaitsNoMore(rows: Rows, deps: Deps, j: JobId, c: JobId, after: Row)
    requires c in rows
  {
    if c in deps && j in deps[c] && rows[c].state == WaitDependencies && forall p <- deps[c] | p in rows :: rows[p].state == Done
    then after == rows[c].(state := Pending) else after == rows[c]
  }

  /** The database, and what the workers at work on it are doing. */
  class Site {
    var rows: Rows
    var deps: Deps
    var locks: map<JobId, Worker>
    ghost var phases: map<Worker, Phase>

    ghost function Whole(sched: Sched, runner: Runner): Sys
      reads this
    {
      Sys(rows, deps, locks, phases, sched, runner)
    }

    constructor ()
      ensures rows == map[] && deps == map[] && locks == map[] && phases == map[]
    {
      rows, deps, locks, phases := map[], map[], map[], map[];
    }

    /** Store a new graph of jobs (`add_depends` for each edge, then `store`): a job waits when one of the
        jobs it depends on is not done, and none may depend on itself (a ValueError in the program). */
    method StoreGraph(batch: Deps, limits: map<JobId, nat>) returns (ok: bool)
      requires limits.Keys == batch.Keys && batch.Keys !! rows.Keys && batch.Keys !! deps.Keys
      requires forall c <- batch :: batch[c] <= batch.Keys
      modifies this`rows, this`deps
      ensures ok <==> forall c <- batch :: c !in batch[c]
      ensures ok ==> rows == old(rows) + NewRows(batch, limits) && deps == old(deps) + batch
      ensures ok ==> forall j <- batch ::
        j in rows && rows[j] == Row(if batch[j] == {} then Pending else WaitDependencies, 0, limits[j], false)
      ensures !ok ==> rows == old(rows) && deps == old(deps)
    {
      var states;
      ok, states := StatesOf(batch);
      if ok {
        rows := rows + Created(batch, states, limits);
        deps := deps + batch;
      }
    }

    /** Write the job's row. */
    method Store(job: Job)
      requires job.uuid in rows
      modifies this`rows
      ensures rows == old(rows)[job.uuid := old(rows)[job.uuid].(state := job.state, retry := job.retry)]
    {
      rows := rows[job.uuid := rows[job.uuid].(state := job.state, retry := job.retry)];
    }

    /** `add_lock_record`: no effect when there is one. */
    method AddLockRecord(j: JobId)
      requires j in rows
      modifies this`rows
      ensures rows == old(rows)[j := old(rows)[j].(lockRow := true)]
    {
      rows := rows[j := rows[j].(lockRow := true)];
    }

    /** The row of the lock table, if the job is started and nobody holds the row. */
    method Lock(j: JobId, w: Worker) returns (locked: bool)
      modifies this`locks
      ensures locked <==> j in rows && rows[j].state == Started && rows[j].lockRow && j !in old(locks)
      ensures locks == if locked then old(locks)[j := w] else old(locks)
    {
      locked := j in rows && rows[j].state == Started && rows[j].lockRow && j !in locks;
      if locked {
        locks := locks[j := w];
      }
    }

    /** The end of a transaction lets go of the lock. */
    method Release(j: JobId)
      modifies this`locks
      ensures locks == old(locks) - {j}
    {
      locks := locks - {j};
    }

    method EnqueueWaiting(j: JobId)
      modifies this`rows
      ensures rows == Released(old(rows), deps, j) && rows.Keys == old(rows).Keys
      ensures forall c <- rows :: WaitsNoMore(old(rows), deps, j, c, rows[c])
    {
      var dependents := set c <- rows |
        c in Dependents(deps, j) && rows[c].state == WaitDependencies && DepsDone(rows, deps, c);
      rows := map c <- rows :: if c in dependents then rows[c].(state := Pending) else rows[c];
    }

    /** Level by level: the waiting ones among the dependents are cancelled, then their dependents are
        looked at. Cancelled jobs no longer wait, so this ends on any dependency relation. */
    method CancelDependentJobs(j: JobId)
      modifies this`rows
      ensures rows == Cascaded(old(rows), deps, j)
    {
      ghost var before := rows;
      ghost var gone: set<JobId> := {};
      var dependents := Dependents(deps, j);
      CascadeStart(before, deps, j);
      while dependents != {}
        invariant rows == MarkedOff(before, gone)
        invariant CascadeInv(before, deps, j, gone, dependents)
        decreases Waiting(rows), dependents
      {
        hide CascadeInv;
        var waiting := dependents * Waiting(rows);
        MarkingOff(before, gone, waiting);
        CascadeStep(before, deps, j, gone, dependents, waiting);
        rows := map c <- rows :: if c in waiting then rows[c].(state := Cancelled) else rows[c];
        gone := gone + waiting;
        dependents := DependentsOf(deps, waiting);
      }
      CascadeEnd(before, deps, j, gone);
    }
  }
}
