/** No deleted Restore is stuck: whatever has happened, it can still go away. */
module RestoreProgress {
  import opened RestoreModel
  import opened RestoreSafety
  import opened RestoreHazards

  // ---------- a Restore that is being deleted has its finalizer ----------

  ghost predicate HeldWorker(s: State) {
    && (s.worker.AddFinalizer? ==> !s.worker.seen.deleting)
    && (s.worker.WriteStatus? ==>
          s.worker.next.finalizer == s.worker.seen.finalizer && s.worker.next.deleting == s.worker.seen.deleting)
  }

  ghost predicate Held(s: State) {
    HeldWorker(s) && forall n | n in s.restores :: s.restores[n].deleting ==> s.restores[n].finalizer
  }

  lemma StatusKeepsHeld(s: State)
    requires Held(s) && (s.worker.WriteStatus? || s.worker.AddFinalizer? || s.worker.RemoveFinalizer?)
    ensures Held(Perform(s))
  {
    var t, n := Perform(s), s.worker.name;
    assert t.restores == s.restores || Unchanged(s, n, s.worker.seen);
    assert t.worker == Idle;
    assert forall m | m in t.restores && m != n :: m in s.restores && t.restores[m] == s.restores[m];
  }

  lemma WorkKeepsHeld(s: State)
    requires Held(s) && !s.worker.Idle?
    ensures Held(Perform(s))
  {
    if s.worker.WriteStatus? || s.worker.AddFinalizer? || s.worker.RemoveFinalizer? {
      StatusKeepsHeld(s);
    } else if s.worker.Claim? || s.worker.CreateJob? || s.worker.DeleteVolumes? {
      StartsKeepHeld(s);
    } else {
      EndsKeepHeld(s);
    }
  }

  lemma StartsKeepHeld(s: State)
    requires Held(s) && (s.worker.Claim? || s.worker.CreateJob? || s.worker.DeleteVolumes?)
    ensures Held(Perform(s))
  {
    assert Perform(s).restores == s.restores;
  }

  lemma EndsKeepHeld(s: State)
    requires Held(s) && (s.worker.Finish? || s.worker.Record? || s.worker.StopJob?)
    ensures Held(Perform(s))
  {
    assert Perform(s).restores == s.restores;
  }

  lemma StepKeepsHeld(s: State, e: Event)
    requires Held(s) && Enabled(s, e)
    ensures Held(Next(s, e))
  {
    if e.Work? {
      WorkKeepsHeld(s);
    } else if e.CreateRestore? || e.DeleteRestore? {
      EditKeepsHeld(s, e);
    } else {
      assert Next(s, e).restores == s.restores;
    }
  }

  lemma EditKeepsHeld(s: State, e: Event)
    requires Held(s) && Enabled(s, e) && (e.CreateRestore? || e.DeleteRestore?)
    ensures Held(Next(s, e))
  {
    var t := Next(s, e);
    assert t.worker == s.worker;
    assert forall m | m in t.restores && m != e.name :: m in s.restores && t.restores[m] == s.restores[m];
  }

  lemma {:induction false} RunKeepsHeld(s: State, es: seq<Event>, t: State)
    requires Held(s) && Run(s, es, t)
    ensures Held(t)
    decreases |es|
  {
    if es != [] {
      StepKeepsHeld(s, es[0]);
      RunKeepsHeld(Next(s, es[0]), es[1..], t);
    }
  }

  lemma ReachableHeld(t: State)
    requires Reachable(t)
    ensures Held(t)
  {
    var s :| Init(s) && Leads(From(s, AnyEvent), t);
    var es :| Run(s, es, t) && forall e <- es :: Fits(AnyEvent, e);
    RunKeepsHeld(s, es, t);
  }

  // ---------- its way out ----------

  predicate Deleted(s: State, n: string) {
    s.worker.Idle? && n in s.restores && s.restores[n].deleting && s.restores[n].finalizer && n !in s.jobPods
  }

  /** Finished, or without a Job that it has created, it goes within a few writes. */
  lemma GoesAtOnce(f: From, s: State, n: string) returns (t: State)
    requires Leads(f, s) && Deleted(s, n)
    requires var r := s.restores[n];
             !Unfinished(r) || (!OwnJob(s, n, r.uid) && (!r.jobRecorded || r.reason == CreatingJob))
    ensures Leads(f, t) && n !in t.restores
  {
    t := Reconcile(f, s, n);
    if t.worker.Finish? {
      t := Write(f, t);
    }
    t := Write(f, t);
  }

  /** With its Job lost, the end is recorded on the Cluster first. */
  lemma GoesInterrupted(f: From, s: State, n: string) returns (t: State)
    requires Leads(f, s) && Deleted(s, n)
    requires var r := s.restores[n];
             Unfinished(r) && !OwnJob(s, n, r.uid) && r.jobRecorded && r.reason != CreatingJob
    ensures Leads(f, t) && n !in t.restores
  {
    t := Reconcile(f, s, n);
    t := Write(f, t);
    t := Write(f, t);
    t := Write(f, t);
    t := Write(f, t);
  }

  lemma GoesWithoutJob(f: From, s: State, n: string) returns (t: State)
    requires Leads(f, s) && Deleted(s, n)
    requires !Unfinished(s.restores[n]) || !OwnJob(s, n, s.restores[n].uid)
    ensures Leads(f, t) && n !in t.restores
  {
    var r := s.restores[n];
    if Unfinished(r) && r.jobRecorded && r.reason != CreatingJob {
      t := GoesInterrupted(f, s, n);
    } else {
      t := GoesAtOnce(f, s, n);
    }
  }

  /** A Job that failed is deleted, and then removed. */
  lemma JobIsStopped(f: From, s: State, n: string) returns (t: State)
    requires Leads(f, s) && Deleted(s, n) && Unfinished(s.restores[n])
    requires OwnJob(s, n, s.restores[n].uid) && s.jobs[n].state.JobFailed? && !s.jobs[n].deleting
    ensures Leads(f, t) && Deleted(t, n) && n !in t.jobs
  {
    t := Reconcile(f, s, n);
    t := Write(f, t);
    t := Write(f, t);
    t := Write(f, t);
    t := Extend(f, t, JobRemoved(n));
  }

  lemma {:induction false} Swept(f: From, s: State, todo: set<nat>) returns (t: State)
    requires Leads(f, s) && s.worker.DeleteVolumes? && s.worker.todo == todo
    ensures Leads(f, t) && t.worker == s.worker.(todo := {})
    ensures t.restores == s.restores && t.jobs == s.jobs && t.jobPods == s.jobPods
    decreases todo
  {
    t := s;
    if todo != {} {
      var i :| i in todo;
      t := Extend(f, s, DeleteVolume(i));
      t := Swept(f, t, todo - {i});
    }
  }

  /** A complete one: its Restore goes on to delete the standbys' volumes, or to its success. */
  lemma JobIsComplete(f: From, s: State, n: string) returns (t: State)
    requires Leads(f, s) && Deleted(s, n) && Unfinished(s.restores[n])
    requires OwnJob(s, n, s.restores[n].uid) && s.jobs[n].state.Complete? && !s.jobs[n].deleting
    ensures Leads(f, t) && Deleted(t, n)
    ensures !Unfinished(t.restores[n]) || t.restores[n].reason == Restoring
  {
    t := Reconcile(f, s, n);
    if t.worker.DeleteVolumes? {
      t := Swept(f, t, t.worker.todo);
      t := Extend(f, t, Work);
      t := Write(f, t);
    } else {
      t := Write(f, t);
      t := Write(f, t);
      t := Write(f, t);
    }
  }

  lemma JobGoes(f: From, s: State, n: string) returns (t: State)
    requires Leads(f, s) && Deleted(s, n) && Unfinished(s.restores[n]) && OwnJob(s, n, s.restores[n].uid)
    ensures Leads(f, t) && Deleted(t, n)
    ensures !Unfinished(t.restores[n]) || n !in t.jobs
  {
    t := s;
    if s.jobs[n].state.Active? {
      t := Extend(f, s, JobFails(n));
    }
    if InCreation(t, n) && !t.jobs[n].deleting {
      if t.jobs[n].state.JobFailed? {
        t := JobIsStopped(f, t, n);
        return;
      }
      t := JobIsComplete(f, t, n);
    }
    if Unfinished(t.restores[n]) && n in t.jobs {
      t := Extend(f, t, JobRemoved(n));
    }
  }

  /** In every reachable state, a Restore that is being deleted can still go away, and without the help of a
      user: no crash, no lost Job, no other Restore and no state of the Cluster keeps it for ever. */
  lemma DeletedRestoreCanGo(s: State, n: string)
    requires Reachable(s) && n in s.restores && s.restores[n].deleting
    ensures exists t :: Leads(From(s, Unaided), t) && n !in t.restores
  {
    var f := From(s, Unaided);
    ReachableHeld(s);
    Stays(s, Unaided);
    var t := Extend(f, s, Crash);
    t := Extend(f, t, JobPodEnds(n));
    if Unfinished(t.restores[n]) && OwnJob(t, n, t.restores[n].uid) {
      t := JobGoes(f, t, n);
    }
    t := GoesWithoutJob(f, t, n);
  }
}
