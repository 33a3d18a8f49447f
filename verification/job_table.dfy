/** The states of a job (queue_job/job.py, lines 40-56). */
module JobStates {
  datatype JobState = WaitDependencies | Pending | Enqueued | Cancelled | Done | Started | Failed
}

/** The shared job table: states, dependencies and what one transaction does to them
    (queue_job/job.py, lines 496-587 and 828-873; queue_job/models/queue_job.py, lines 375-424). */
module JobTable {
  import opened JobStates

  type JobId = string

  /** A row of the table. `lockRow` tells whether the job has a row in the lock table; a maximum of
      0 stands for no limit on retries. */
  datatype Row = Row(state: JobState, retry: nat, maxRetries: nat, lockRow: bool)

  type Rows = map<JobId, Row>
  type Deps = map<JobId, set<JobId>>

  function DepsOf(deps: Deps, j: JobId): set<JobId> {
    if j in deps then deps[j] else {}
  }

  predicate IsDone(rows: Rows, j: JobId) {
    j in rows && rows[j].state == Done
  }

  /** None of the dependencies is in another state than done. */
  predicate DepsDone(rows: Rows, deps: Deps, j: JobId) {
    forall p <- DepsOf(deps, j) :: p in rows ==> rows[p].state == Done
  }

  function Dependents(deps: Deps, j: JobId): set<JobId> {
    set c <- deps | j in deps[c]
  }

  function DependentsOf(deps: Deps, js: set<JobId>): set<JobId> {
    set c <- deps | deps[c] * js != {}
  }

  // ----- what a transaction does, as functions ---------------------------------------------------

  function WithState(rows: Rows, j: JobId, state: JobState): Rows {
    if j in rows then rows[j := rows[j].(state := state)] else rows
  }

  /** `set_pending`: back to pending, or to waiting when a dependency is not done. */
  function MadePending(rows: Rows, deps: Deps, j: JobId): Rows {
    WithState(rows, j, if DepsDone(rows, deps, j) then Pending else WaitDependencies)
  }

  /** `enqueue_waiting`: the dependents of a job that only waited for it become pending. */
  function Released(rows: Rows, deps: Deps, j: JobId): Rows {
    map c <- rows ::
      if c in Dependents(deps, j) && rows[c].state == WaitDependencies && DepsDone(rows, deps, c)
      then rows[c].(state := Pending) else rows[c]
  }

  /** A chain of dependents, each waiting, that starts at a dependent of `j`. */
  ghost predicate Chain(rows: Rows, deps: Deps, j: JobId, path: seq<JobId>) {
    && path != [] && path[0] in Dependents(deps, j)
    && (forall i | 0 <= i < |path| :: path[i] in rows && rows[path[i]].state == WaitDependencies)
    && (forall i | 0 < i < |path| :: path[i] in Dependents(deps, path[i - 1]))
  }

  /** The job can be reached from `j` through dependents that all wait. */
  ghost predicate Stranded(rows: Rows, deps: Deps, j: JobId, c: JobId) {
    exists path :: Chain(rows, deps, j, path) && path[|path| - 1] == c
  }

  /** `cancel_dependent_jobs`: exactly the jobs reachable through waiting dependents are cancelled. */
  ghost function Cascaded(rows: Rows, deps: Deps, j: JobId): Rows {
    map c <- rows :: if Stranded(rows, deps, j, c) then rows[c].(state := Cancelled) else rows[c]
  }

  // ----- the user's buttons ----------------------------------------------------------------------

  predicate CanBeDone(state: JobState) {
    state.WaitDependencies? || state.Pending? || state.Enqueued? || state.Failed?
  }

  predicate CanBeRequeued(state: JobState) {
    state.Failed? || state.Done? || state.Cancelled?
  }

  /** `button_done` on one record. */
  function UserDone(rows: Rows, deps: Deps, j: JobId): Rows {
    if j in rows && CanBeDone(rows[j].state) then Released(WithState(rows, j, Done), deps, j) else rows
  }

  /** `button_cancelled` on one record. */
  ghost function UserCancelled(rows: Rows, deps: Deps, j: JobId): Rows {
    if j in rows && CanBeDone(rows[j].state) then Cascaded(WithState(rows, j, Cancelled), deps, j) else rows
  }

  /** `requeue` on one record; the count of retries starts again. */
  function UserRequeued(rows: Rows, deps: Deps, j: JobId): Rows {
    if j in rows && CanBeRequeued(rows[j].state) then
      var n := MadePending(rows, deps, j);
      n[j := n[j].(retry := 0)]
    else rows
  }

  datatype Button = MarkDone | Cancel | Requeue

  ghost function Pressed(b: Button, rows: Rows, deps: Deps, j: JobId): Rows {
    match b
    case MarkDone => UserDone(rows, deps, j)
    case Cancel => UserCancelled(rows, deps, j)
    case Requeue => UserRequeued(rows, deps, j)
  }

  /** A button pressed on one record after the other. */
  ghost function PressedAll(b: Button, rows: Rows, deps: Deps, js: seq<JobId>): Rows {
    if js == [] then rows else Pressed(b, PressedAll(b, rows, deps, js[..|js| - 1]), deps, js[|js| - 1])
  }

  // ----- dead jobs ---------------------------------------------------------------------------------

  /** What the requeuer makes of one dead row. */
  function DeadRow(row: Row): Row {
    row.(
      state := if row.maxRetries != 0 && row.retry > row.maxRetries then Failed else Pending,
      retry := if row.state == Started then row.retry + 1 else row.retry)
  }

  /** Enqueued or started, and not locked by anyone who performs it. */
  predicate LooksDead(row: Row, held: bool) {
    (row.state.Enqueued? || row.state.Started?) && (!row.lockRow || !held)
  }

  // ----- the cascade, level by level -----------------------------------------------------------

  function MarkedOff(rows: Rows, gone: set<JobId>): Rows {
    map c <- rows :: if c in gone then rows[c].(state := Cancelled) else rows[c]
  }

  /** The jobs cancelled so far are stranded; what is left to find depends on those to look at. */
  ghost predicate CascadeInv(rows: Rows, deps: Deps, j: JobId, gone: set<JobId>, dependents: set<JobId>) {
    && (forall c <- gone :: Stranded(rows, deps, j, c))
    && (forall c <- dependents :: c in Dependents(deps, j) || exists p <- gone :: c in Dependents(deps, p))
    && (forall c <- Waiting(rows) :: c in Dependents(deps, j) ==> c in gone || c in dependents)
    && (forall p <- gone, c <- Waiting(rows) :: c in Dependents(deps, p) ==> c in gone || c in dependents)
  }

  lemma CascadeStart(rows: Rows, deps: Deps, j: JobId)
    ensures CascadeInv(rows, deps, j, {}, Dependents(deps, j)) && rows == MarkedOff(rows, {})
  {
  }

  lemma MarkingOff(rows: Rows, gone: set<JobId>, waiting: set<JobId>)
    requires waiting <= Waiting(MarkedOff(rows, gone))
    ensures Waiting(MarkedOff(rows, gone)) == Waiting(rows) - gone
    ensures var now := MarkedOff(rows, gone);
      MarkedOff(rows, gone + waiting) == map c <- now :: if c in waiting then now[c].(state := Cancelled) else now[c]
    ensures waiting != {} ==> Waiting(MarkedOff(rows, gone + waiting)) < Waiting(MarkedOff(rows, gone))
  {
  }

  lemma CascadeStep(rows: Rows, deps: Deps, j: JobId, gone: set<JobId>, dependents: set<JobId>, waiting: set<JobId>)
    requires CascadeInv(rows, deps, j, gone, dependents) && waiting == dependents * (Waiting(rows) - gone)
    ensures CascadeInv(rows, deps, j, gone + waiting, DependentsOf(deps, waiting))
  {
    hide Chain, Stranded;
    CancelLevel(rows, deps, j, gone, waiting);
    var next := DependentsOf(deps, waiting);
    forall c <- next ensures exists p <- gone + waiting :: c in Dependents(deps, p) {
      var p :| p in deps[c] * waiting;
      assert p in gone + waiting && c in Dependents(deps, p);
    }
    forall p <- gone + waiting, c <- Waiting(rows) | c in Dependents(deps, p)
      ensures c in gone + waiting || c in next
    {
      if p in waiting {
        assert p in deps[c] * waiting;
      }
    }
  }

  lemma CascadeEnd(rows: Rows, deps: Deps, j: JobId, gone: set<JobId>)
    requires CascadeInv(rows, deps, j, gone, {})
    ensures MarkedOff(rows, gone) == Cascaded(rows, deps, j)
  {
    CascadeComplete(rows, deps, j, gone);
  }

  function Waiting(rows: Rows): set<JobId> {
    set c <- rows | rows[c].state == WaitDependencies
  }

  lemma CancelLevel(rows: Rows, deps: Deps, j: JobId, gone: set<JobId>, waiting: set<JobId>)
    requires forall c <- gone :: Stranded(rows, deps, j, c)
    requires waiting <= Waiting(rows)
    requires forall c <- waiting :: c in Dependents(deps, j) || exists p <- gone :: c in Dependents(deps, p)
    ensures forall c <- waiting :: Stranded(rows, deps, j, c)
  {
    forall c <- waiting ensures Stranded(rows, deps, j, c) {
      if c in Dependents(deps, j) {
        assert Chain(rows, deps, j, [c]) && [c][|[c]| - 1] == c;
      } else {
        var p :| p in gone && c in Dependents(deps, p);
        var path :| Chain(rows, deps, j, path) && path[|path| - 1] == p;
        assert Chain(rows, deps, j, path + [c]);
        assert (path + [c])[|path + [c]| - 1] == c;
      }
    }
  }

  /** A set of jobs closed under waiting dependents holds every stranded job. */
  lemma {:induction false} ChainIn(rows: Rows, deps: Deps, j: JobId, gone: set<JobId>, path: seq<JobId>, i: nat)
    requires Chain(rows, deps, j, path) && i < |path|
    requires forall c <- Waiting(rows) :: c in Dependents(deps, j) ==> c in gone
    requires forall p <- gone, c <- Waiting(rows) :: c in Dependents(deps, p) ==> c in gone
    ensures path[i] in gone
  {
    assert path[i] in Waiting(rows);
    if i > 0 {
      ChainIn(rows, deps, j, gone, path, i - 1);
    }
  }

  lemma CascadeComplete(rows: Rows, deps: Deps, j: JobId, gone: set<JobId>)
    requires forall c <- gone :: Stranded(rows, deps, j, c)
    requires forall c <- Waiting(rows) :: c in Dependents(deps, j) ==> c in gone
    requires forall p <- gone, c <- Waiting(rows) :: c in Dependents(deps, p) ==> c in gone
    ensures forall c <- rows :: c in gone <==> Stranded(rows, deps, j, c)
  {
    forall c <- rows | Stranded(rows, deps, j, c) ensures c in gone {
      var path :| Chain(rows, deps, j, path) && path[|path| - 1] == c;
      ChainIn(rows, deps, j, gone, path, |path| - 1);
    }
  }
}
