/** The buttons of the users, pressed on several records in one transaction
    (queue_job/models/queue_job.py, lines 375-424). */
module Users {
  import opened JobStates
  import opened JobTable
  import opened Jobs
  import opened Protocol

  ghost predicate Distinct(js: seq<JobId>) {
    forall i, k | 0 <= i < k < |js| :: js[i] != js[k]
  }

  /** The states a button works from. */
  predicate StatesFrom(b: Button, state: JobState) {
    if b.Requeue? then CanBeRequeued(state) else CanBeDone(state)
  }

  function Eligible(b: Button, rows: Rows, js: seq<JobId>): seq<JobId> {
    if js == [] then []
    else
      var j := js[|js| - 1];
      Eligible(b, rows, js[..|js| - 1]) + (if j in rows && StatesFrom(b, rows[j].state) then [j] else [])
  }

  /** What the button does to a record it works on. */
  ghost function Changed(b: Button, rows: Rows, deps: Deps, j: JobId): Rows {
    match b
    case MarkDone => Released(WithState(rows, j, Done), deps, j)
    case Cancel => Cascaded(WithState(rows, j, Cancelled), deps, j)
    case Requeue =>
      if j in rows then
        var n := MadePending(rows, deps, j);
        n[j := n[j].(retry := 0)]
      else rows
  }

  ghost function ChangedAll(b: Button, rows: Rows, deps: Deps, js: seq<JobId>): Rows {
    if js == [] then rows else Changed(b, ChangedAll(b, rows, deps, js[..|js| - 1]), deps, js[|js| - 1])
  }

  /** Marking done or requeuing other records does not make a record eligible, or ineligible. */
  lemma {:induction false} OthersPressed(b: Button, rows: Rows, deps: Deps, js: seq<JobId>, j: JobId)
    requires !b.Cancel? && j !in js
    ensures var n := PressedAll(b, rows, deps, js);
      n.Keys == rows.Keys && (j in rows ==> (StatesFrom(b, n[j].state) <==> StatesFrom(b, rows[j].state)))
    decreases |js|
  {
    if js != [] {
      OthersPressed(b, rows, deps, js[..|js| - 1], j);
    }
  }

  lemma PressedOne(b: Button, rows: Rows, deps: Deps, j: JobId)
    requires !b.Cancel?
    ensures Pressed(b, rows, deps, j) ==
      if j in rows && StatesFrom(b, rows[j].state) then Changed(b, rows, deps, j) else rows
  {
    hide Released, WithState, MadePending;
  }

  /** Choosing the records first and changing them after is the same as pressing the button on each. */
  lemma {:induction false} ChosenFirst(b: Button, rows: Rows, deps: Deps, js: seq<JobId>)
    requires !b.Cancel? && Distinct(js)
    ensures ChangedAll(b, rows, deps, Eligible(b, rows, js)) == PressedAll(b, rows, deps, js)
    decreases |js|
  {
    hide Pressed, Changed, StatesFrom;
    if js != [] {
      var front, j := js[..|js| - 1], js[|js| - 1];
      ChosenFirst(b, rows, deps, front);
      OthersPressed(b, rows, deps, front, j);
      PressedOne(b, PressedAll(b, rows, deps, front), deps, j);
      var e := Eligible(b, rows, front);
      assert (e + [j])[..|e|] == e && e + [] == e;
    }
  }

  // ----- what the buttons make of a row -----------------------------------------------------------

  predicate Open(state: JobState) {
    state == WaitDependencies || state == Pending || state == Enqueued || state == Failed
  }

  /** `button_done`: a record that waits, is pending, enqueued or failed is done; any other row stays, but for dependents
      that need wait no longer. */
  predicate AfterDone(row: Row, pressed: bool, after: Row) {
    && after == row.(state := after.state)
    && if pressed && Open(row.state) then after.state == Done
       else after.state == row.state || (row.state == WaitDependencies && after.state == Pending)
  }

  /** `button_cancelled`: likewise, but waiting dependents may be cancelled too. */
  predicate AfterCancel(row: Row, pressed: bool, after: Row) {
    && after == row.(state := after.state)
    && if pressed && Open(row.state) then after.state == Cancelled
       else after.state == row.state || (row.state == WaitDependencies && after.state == Cancelled)
  }

  /** `requeue`: a failed, done or cancelled record goes back, its count of retries reset; no other row changes. */
  predicate AfterRequeue(row: Row, pressed: bool, after: Row) {
    if pressed && (row.state == Failed || row.state == Done || row.state == Cancelled)
    then (after.state == Pending || after.state == WaitDependencies) && after == row.(state := after.state, retry := 0)
    else after == row
  }

  predicate AfterPress(b: Button, row: Row, pressed: bool, after: Row) {
    match b
    case MarkDone => AfterDone(row, pressed, after)
    case Cancel => AfterCancel(row, pressed, after)
    case Requeue => AfterRequeue(row, pressed, after)
  }

  lemma PressedRow(b: Button, rows: Rows, deps: Deps, j: JobId)
    ensures var n := Pressed(b, rows, deps, j);
      n.Keys == rows.Keys && forall k <- rows :: AfterPress(b, rows[k], k == j, n[k])
  {
    if b.Cancel? && j in rows && CanBeDone(rows[j].state) {
      var m := WithState(rows, j, Cancelled);
      forall k <- rows | Stranded(m, deps, j, k) ensures k in m && m[k].state == WaitDependencies {
        WaitsWhenStranded(m, deps, j, k);
      }
      hide Stranded;
    }
  }

  lemma WaitsWhenStranded(rows: Rows, deps: Deps, j: JobId, c: JobId)
    requires Stranded(rows, deps, j, c)
    ensures c in rows && rows[c].state == WaitDependencies
  {
  }

  /** The same of several records. */
  lemma {:induction false} PressedRows(b: Button, rows: Rows, deps: Deps, js: seq<JobId>)
    ensures var n := PressedAll(b, rows, deps, js);
      n.Keys == rows.Keys && forall k <- rows :: AfterPress(b, rows[k], k in js, n[k])
    decreases |js|
  {
    if js != [] {
      var front, j := js[..|js| - 1], js[|js| - 1];
      PressedRows(b, rows, deps, front);
      var m := PressedAll(b, rows, deps, front);
      PressedRow(b, m, deps, j);
      hide Pressed;
      assert forall k :: k in js <==> k in front || k == j by {
        assert js == front + [j];
      }
    }
  }

  /** The records of the table. */
  class QueueJob {
    const site: Site

    constructor (site: Site)
      ensures this.site == site
    {
      this.site := site;
    }

    method ChangeOne(j: JobId, b: Button)
      requires j in site.rows
      modifies site`rows
      ensures site.rows == Changed(b, old(site.rows), site.deps, j) && site.rows.Keys == old(site.rows).Keys
    {
      hide Cascaded, Released, DepsDone;
      CascadeKeys(WithState(site.rows, j, Cancelled), site.deps, j);
      var job := new Job.Load(j, site.rows[j], DepsDone(site.rows, site.deps, j));
      match b {
        case MarkDone =>
          job.SetDone();
          site.Store(job);
          site.EnqueueWaiting(j);
        case Requeue =>
          job.SetPending(true);
          site.Store(job);
        case Cancel =>
          job.SetCancelled();
          site.Store(job);
          site.CancelDependentJobs(j);
      }
    }

    lemma CascadeKeys(rows: Rows, deps: Deps, j: JobId)
      ensures Cascaded(rows, deps, j).Keys == rows.Keys
      ensures forall m :: Released(m, deps, j).Keys == m.Keys
    {
    }

    method ChangeJobState(js: seq<JobId>, b: Button)
      requires forall j <- js :: j in site.rows
      modifies site`rows
      ensures site.rows == ChangedAll(b, old(site.rows), site.deps, js)
    {
      hide Changed;
      ghost var rows := site.rows;
      assert js[..0] == [];
      for i := 0 to |js|
        invariant site.rows.Keys == rows.Keys
        invariant site.rows == ChangedAll(b, rows, site.deps, js[..i])
      {
        assert js[..i + 1][..i] == js[..i];
        ChangeOne(js[i], b);
      }
      assert js[..|js|] == js;
    }

    method Choose(js: seq<JobId>, b: Button) returns (records: seq<JobId>)
      ensures records == Eligible(b, site.rows, js) && forall j <- records :: j in site.rows
    {
      records := [];
      for i := 0 to |js|
        invariant records == Eligible(b, site.rows, js[..i]) && forall j <- records :: j in site.rows
      {
        assert js[..i + 1][..i] == js[..i];
        if js[i] in site.rows && StatesFrom(b, site.rows[js[i]].state) {
          records := records + [js[i]];
        }
      }
      assert js[..|js|] == js;
    }

    method ButtonDone(js: seq<JobId>)
      requires Distinct(js)
      modifies site`rows
      ensures site.rows == PressedAll(MarkDone, old(site.rows), site.deps, js) && site.rows.Keys == old(site.rows).Keys
      ensures forall k <- site.rows :: AfterDone(old(site.rows)[k], k in js, site.rows[k])
    {
      PressedRows(MarkDone, site.rows, site.deps, js);
      ChosenFirst(MarkDone, site.rows, site.deps, js);
      var records := Choose(js, MarkDone);
      ChangeJobState(records, MarkDone);
    }

    method Requeue(js: seq<JobId>)
      requires Distinct(js)
      modifies site`rows
      ensures site.rows == PressedAll(Button.Requeue, old(site.rows), site.deps, js) && site.rows.Keys == old(site.rows).Keys
      ensures forall k <- site.rows :: AfterRequeue(old(site.rows)[k], k in js, site.rows[k])
    {
      PressedRows(Button.Requeue, site.rows, site.deps, js);
      ChosenFirst(Button.Requeue, site.rows, site.deps, js);
      var records := Choose(js, Button.Requeue);
      ChangeJobState(records, Button.Requeue);
    }

    /** Each record is looked at when its turn comes: it may be cancelled by then. */
    method ButtonCancelled(js: seq<JobId>)
      modifies site`rows
      ensures site.rows == PressedAll(Cancel, old(site.rows), site.deps, js) && site.rows.Keys == old(site.rows).Keys
      ensures forall k <- site.rows :: AfterCancel(old(site.rows)[k], k in js, site.rows[k])
    {
      PressedRows(Cancel, site.rows, site.deps, js);
      ghost var rows := site.rows;
      for i := 0 to |js|
        invariant site.rows == PressedAll(Cancel, rows, site.deps, js[..i])
      {
        assert js[..i + 1][..i] == js[..i];
        if js[i] in site.rows && CanBeDone(site.rows[js[i]].state) {
          ghost var now := site.rows;
          ChangeJobState([js[i]], Cancel);
          assert [js[i]][..0] == [];
          assert ChangedAll(Cancel, now, site.deps, []) == now;
        }
      }
      assert js[..|js|] == js;
    }
  }

  function PressAct(b: Button, j: JobId): Act {
    match b
    case MarkDone => PressDone(j)
    case Cancel => PressCancel(j)
    case Requeue => Act.Requeue(j)
  }

  lemma PressStep(b: Button, s: Sys, j: JobId)
    ensures Next(s, PressAct(b, j), s.(rows := Pressed(b, s.rows, s.deps, j)))
  {
    hide UserDone, UserCancelled, UserRequeued;
    assert UserStep(s, PressAct(b, j), s.(rows := Pressed(b, s.rows, s.deps, j)));
    hide UserStep, WorkerStep, RunnerStep;
  }

  /** A button pressed on several records is a run of the step system. */
  lemma {:induction false} PressedIsRun(b: Button, s: Sys, js: seq<JobId>) returns (ss: seq<Sys>, acts: seq<Act>)
    ensures Execution(ss, acts) && |ss| == |acts| + 1 && ss[0] == s
    ensures |acts| == |js| && forall i | 0 <= i < |js| :: acts[i] == PressAct(b, js[i])
    ensures ss[|acts|] == s.(rows := PressedAll(b, s.rows, s.deps, js))
    decreases |js|
  {
    hide Execution, Next, Pressed;
    if js == [] {
      ss, acts := [s], [];
      ExecutionStart(s);
    } else {
      var front, j := js[..|js| - 1], js[|js| - 1];
      ss, acts := PressedIsRun(b, s, front);
      var n := s.(rows := PressedAll(b, s.rows, s.deps, js));
      PressStep(b, ss[|acts|], j);
      ExecutionMore(ss, acts, PressAct(b, j), n);
      ss, acts := ss + [n], acts + [PressAct(b, j)];
    }
  }
}
