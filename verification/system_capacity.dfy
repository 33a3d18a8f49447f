/** Capacity in the whole system: what the runner is notified of is what it asked for itself
    (queue_job/jobrunner/channels.py, lines 502-583 and 1059-1097; queue_job/jobrunner/runner.py, lines
    416-451). */
module SystemCapacity {
  import opened Channels
  import opened Options
  import opened JobStates
  import opened JobTable
  import opened Scheduler
  import opened Pipeline
  import opened ActiveJobs
  import opened Protocol
  import opened ExecutionSafety
  import Capacity

  /** What is left to respect: rows that are active when they are loaded find slots, as does an active job that
      is given another channel, and no capacity is set below the number of running jobs. */
  ghost predicate Steady(s: Sys, a: Act) {
    match a
    case Load(e) => Capacity.Orderly(s.sched, e)
    case Tell(e) =>
      (e.Rescheduled? && e.job.uuid in s.sched.jobs && s.sched.jobs[e.job.uuid].channel != e.job.channel) ==>
        Capacity.Orderly(s.sched, e)
    case Tidy(e) => Capacity.Orderly(s.sched, e)
    case _ => true
  }

  /** A job that runs all the way runs in the root channel. */
  lemma RunsToRoot(s: Sched, u: string)
    requires Inv(s) && Runs(s, u)
    ensures Capacity.RunsAtRoot(s.net, s.jobs[u])
  {
    RunsThere(s, u);
    var root := RootOfLine(s.net.Keys, s.jobs[u].channel);
    RunsIn(s, u, root);
  }

  /** A notification that a job is active only concerns jobs that run in the root channel, so it takes no slot
      that was not taken, unless the job has another channel now. */
  lemma TellIsOrderly(s: Sys, e: Event, s': Sys)
    requires Safe(s) && RunnerStep(s, Tell(e), s') && Capacity.WithinCapacity(s.sched.net)
    ensures Steady(s, Tell(e)) <==> Capacity.Orderly(s.sched, e)
  {
    hide LocksOk, Runs, Inv, Step, Capacity.WithinCapacity, Capacity.SlotsFree;
    if SaysActive(e) {
      var u :| u in s.rows && Notifies(e, u, s.rows[u].state);
      ActiveHere(s.sched, u);
      RunsToRoot(s.sched, u);
      if !(e.Rescheduled? && s.sched.jobs[u].channel != e.job.channel) {
        Capacity.RunningIsOrderly(s.sched, e, s'.sched, u);
      }
    } else {
      QuietIsOrderly(s.sched, e);
    }
  }

  lemma ActiveHere(s: Sched, u: string)
    requires Runs(s, u)
    ensures u in s.jobs
  {
  }

  lemma QuietIsOrderly(s: Sched, e: Event)
    requires !SaysActive(e) && !e.Configured?
    ensures Capacity.Orderly(s, e)
  {
  }

  lemma FreshWithin(s: Sched)
    requires Inv(s) && s.jobs == map[]
    ensures Capacity.WithinCapacity(s.net)
  {
    assert JobsIn(s.net) == {};
    forall c <- s.net ensures s.net[c].running == {} {
      RunningAreJobs(s.net, c);
    }
  }

  lemma RunningAreJobs(net: Network, c: Channel)
    requires c in net
    ensures net[c].running <= JobsIn(net)
  {
    forall j <- net[c].running ensures j in JobsIn(net) {
      assert j in JobsAt(net[c]);
    }
  }

  lemma RunnerWithin(s: Sys, a: Act, s': Sys)
    requires Safe(s) && RunnerStep(s, a, s') && Capacity.WithinCapacity(s.sched.net)
    ensures Capacity.WithinCapacity(s'.sched.net) <==> Steady(s, a)
  {
    hide LocksOk, Inv, Step, Capacity.WithinCapacity, Capacity.Orderly, LooksDead;
    match a {
      case Boot(anew) => FreshWithin(anew);
      case Close(e) =>
        QuietIsOrderly(s.sched, e);
        Capacity.CapacityStepIff(s.sched, e, s'.sched);
      case Load(e) => Capacity.CapacityStepIff(s.sched, e, s'.sched);
      case Tell(e) =>
        TellIsOrderly(s, e, s');
        Capacity.CapacityStepIff(s.sched, e, s'.sched);
      case Tidy(e) => Capacity.CapacityStepIff(s.sched, e, s'.sched);
      case Draw(now, log) =>
        QuietIsOrderly(s.sched, Drained(now, log));
        Capacity.CapacityStepIff(s.sched, Drained(now, log), s'.sched);
      case _ =>
    }
  }

  lemma OthersWithin(s: Sys, a: Act, s': Sys)
    requires WorkerStep(s, a, s') || UserStep(s, a, s')
    ensures s'.sched == s.sched && Steady(s, a)
  {
    hide Capacity.Orderly, Stored, Released, NewRows, UserDone, UserCancelled, UserRequeued;
  }

  /** A step of the system keeps the capacities exactly when it is steady. */
  lemma WithinStepIff(s: Sys, a: Act, s': Sys)
    requires Safe(s) && Next(s, a, s') && Capacity.WithinCapacity(s.sched.net)
    ensures Capacity.WithinCapacity(s'.sched.net) <==> Steady(s, a)
  {
    hide Safe, RunnerStep, WorkerStep, UserStep, Capacity.WithinCapacity, Steady;
    if RunnerStep(s, a, s') {
      RunnerWithin(s, a, s');
    } else {
      OthersWithin(s, a, s');
    }
  }

  lemma SteadyIff(ss: seq<Sys>, acts: seq<Act>, k: nat)
    requires Execution(ss, acts) && Initial(ss[0]) && k < |acts| && Capacity.WithinCapacity(ss[k].sched.net)
    ensures Capacity.WithinCapacity(ss[k + 1].sched.net) <==> Steady(ss[k], acts[k])
  {
    SafeOverRuns(ss, acts, k);
    assert Next(ss[k], acts[k], ss[k + 1]);
    hide Execution, Initial, Safe, Next, Steady, Capacity.WithinCapacity;
    WithinStepIff(ss[k], acts[k], ss[k + 1]);
  }

  lemma {:induction false} WithinAt(ss: seq<Sys>, acts: seq<Act>, i: nat)
    requires Execution(ss, acts) && Initial(ss[0]) && i < |ss|
    requires forall k | 0 <= k < i :: Steady(ss[k], acts[k])
    ensures Capacity.WithinCapacity(ss[i].sched.net)
  {
    if i == 0 {
      FreshWithin(ss[0].sched);
    } else {
      WithinAt(ss, acts, i - 1);
      hide Execution, Initial, Steady, Capacity.WithinCapacity;
      SteadyIff(ss, acts, i - 1);
    }
  }

  /** Every positive capacity is respected in every state of a run of the whole system, exactly when every step
      is steady. */
  lemma WithinOverRuns(ss: seq<Sys>, acts: seq<Act>)
    requires Execution(ss, acts) && Initial(ss[0])
    ensures (forall i | 0 <= i < |ss| :: Capacity.WithinCapacity(ss[i].sched.net)) <==>
      (forall k | 0 <= k < |acts| :: Steady(ss[k], acts[k]))
  {
    hide Initial, Steady, Capacity.WithinCapacity, Next;
    if forall i | 0 <= i < |ss| :: Capacity.WithinCapacity(ss[i].sched.net) {
      forall k | 0 <= k < |acts| ensures Steady(ss[k], acts[k]) {
        SteadyIff(ss, acts, k);
      }
    }
    if forall k | 0 <= k < |acts| :: Steady(ss[k], acts[k]) {
      forall i | 0 <= i < |ss| ensures Capacity.WithinCapacity(ss[i].sched.net) {
        WithinAt(ss, acts, i);
      }
    }
  }
}
