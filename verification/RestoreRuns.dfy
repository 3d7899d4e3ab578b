/** Whole runs of the restore protocol: when PostgreSQL and a restore Job exclude each other. */
module RestoreRuns {
  import opened RestoreModel
  import opened RestoreSafety

  // ---------- a Restore that creates its Job still holds the Cluster ----------

  /** A target that failed to resolve stays unresolved once the Restore has recorded its Job. */
  ghost predicate NoFlap(s: State, e: Event) {
    e.TargetAppears? ==> forall n | n in s.restores :: s.restores[n].uid == e.uid ==> !s.restores[n].jobRecorded
  }

  predicate AboutToCreate(r: Restore) {
    Unfinished(r) && r.jobRecorded && !r.deleting && r.reason == CreatingJob
  }

  ghost predicate NoForeignJobs(s: State) {
    forall n | n in s.restores && n in s.jobs :: s.restores[n].jobRecorded ==> s.jobs[n].owner == s.restores[n].uid
  }

  ghost predicate DeletingJobsDeleted(s: State) {
    forall n | n in s.restores && n in s.jobs ::
      s.jobs[n].deleting && s.jobs[n].owner == s.restores[n].uid ==> s.restores[n].deleting
  }

  /** A Restore about to create its Job holds the Cluster, or its target is gone for good. */
  ghost predicate CreatorsHold(s: State) {
    forall n | n in s.restores && n !in s.jobs ::
      AboutToCreate(s.restores[n]) && s.restores[n].uid in s.resolvable ==> s.cluster.inProgress == n
  }

  predicate CreatorWorkerOk(s: State) {
    match s.worker
    case WriteStatus(n, seen, next) =>
      && (next.reason == CreatingJob ==> RecordsJob(s.worker))
      && (RecordsJob(s.worker) ==> n in s.jobs ==> s.jobs[n].owner == seen.uid)
    case CreateJob(n, seen) => s.cluster.inProgress == n
    case Finish(n, seen, o, after) =>
      AboutToCreate(seen) && n in s.restores && !s.restores[n].deleting ==>
        && (o.Released? ==> seen.uid !in s.resolvable)
        && !o.Interrupted?
        && (o.RestoreSucceeded? || o.RestoreFailed? ==> n in s.jobs)
    case StopJob(n, seen, hadJob) => seen.deleting
    case _ => true
  }

  ghost predicate Creators(s: State) {
    NoForeignJobs(s) && DeletingJobsDeleted(s) && CreatorsHold(s) && CreatorWorkerOk(s)
  }

  lemma StartKeepsCreators(s: State, n: string)
    requires Inv(s) && Creators(s) && Enabled(s, Start(n))
    ensures Creators(Next(s, Start(n)))
  {
  }

  lemma WorkKeepsCreators(s: State)
    requires Inv(s) && Creators(s) && Enabled(s, Work)
    requires s.worker.AddFinalizer? || s.worker.Claim? || s.worker.DeleteVolumes? || s.worker.Record?
    ensures Creators(Perform(s))
  {
  }

  lemma StopKeepsCreators(s: State)
    requires Inv(s) && Creators(s) && (s.worker.StopJob? || s.worker.RemoveFinalizer?)
    ensures Creators(Perform(s))
  {
  }

  lemma FinishKeepsCreators(s: State)
    requires Inv(s) && Creators(s) && s.worker.Finish?
    ensures Creators(Perform(s))
  {
  }

  lemma WriteStatusKeepsCreators(s: State)
    requires Inv(s) && Creators(s) && (s.worker.WriteStatus? || s.worker.CreateJob?)
    ensures Creators(Perform(s))
  {
  }

  lemma JobEndKeepsCreators(s: State, e: Event)
    requires Inv(s) && Creators(s) && Enabled(s, e) && (e.JobCompletes? || e.JobFails?)
    ensures Creators(Next(s, e))
  {
    var t := Next(s, e);
    assert t.restores == s.restores && t.cluster == s.cluster && t.worker == s.worker && t.resolvable == s.resolvable;
    assert t.jobs.Keys == s.jobs.Keys;
    assert forall n | n in t.jobs :: t.jobs[n].(state := s.jobs[n].state) == s.jobs[n];
  }

  lemma OtherStepKeepsCreators(s: State, e: Event)
    requires Inv(s) && Creators(s) && Enabled(s, e) && NoFlap(s, e)
    requires !e.Start? && !e.Work? && !e.CreateRestore? && !e.DeleteRestore?
    requires !e.JobCompletes? && !e.JobFails? && !e.JobRemoved?
    ensures Creators(Next(s, e))
  {
    var t := Next(s, e);
    assert t.restores == s.restores && t.jobs == s.jobs && t.cluster.inProgress == s.cluster.inProgress;
  }

  lemma RestoreEditKeepsCreators(s: State, e: Event)
    requires Inv(s) && Creators(s) && Enabled(s, e) && (e.CreateRestore? || e.DeleteRestore?)
    ensures Creators(Next(s, e))
  {
  }

  lemma JobRemovedKeepsCreators(s: State, n: string)
    requires Inv(s) && Creators(s) && Enabled(s, JobRemoved(n))
    ensures Creators(Next(s, JobRemoved(n)))
  {
  }

  lemma StepKeepsCreators(s: State, e: Event)
    requires Inv(s) && Creators(s) && Enabled(s, e) && NoFlap(s, e)
    ensures Creators(Next(s, e))
  {
    if e.Start? {
      StartKeepsCreators(s, e.name);
    } else if e.JobRemoved? {
      JobRemovedKeepsCreators(s, e.name);
    } else if e.CreateRestore? || e.DeleteRestore? {
      RestoreEditKeepsCreators(s, e);
    } else if e.JobCompletes? || e.JobFails? {
      JobEndKeepsCreators(s, e);
    } else if !e.Work? {
      OtherStepKeepsCreators(s, e);
    } else if s.worker.Finish? {
      FinishKeepsCreators(s);
    } else if s.worker.WriteStatus? || s.worker.CreateJob? {
      WriteStatusKeepsCreators(s);
    } else if s.worker.StopJob? || s.worker.RemoveFinalizer? {
      StopKeepsCreators(s);
    } else {
      WorkKeepsCreators(s);
    }
  }

  ghost predicate TargetsStayAway(s: State, es: seq<Event>)
    decreases |es|
  {
    es != [] && Enabled(s, es[0]) ==> NoFlap(s, es[0]) && TargetsStayAway(Next(s, es[0]), es[1..])
  }

  lemma {:induction false} RunKeepsCreators(s: State, es: seq<Event>, t: State)
    requires Inv(s) && Creators(s) && Run(s, es, t) && TargetsStayAway(s, es)
    ensures Inv(t) && Creators(t)
    decreases |es|
  {
    if es != [] {
      StepKeepsInv(s, es[0]);
      StepKeepsCreators(s, es[0]);
      RunKeepsCreators(Next(s, es[0]), es[1..], t);
    }
  }

  /** Whatever is deleted, claimed, finished or cut short by a crash in between: as long as no vanished
      target comes back, a Restore that creates its Job still holds the Cluster, and with PostgreSQL off. */
  lemma CreatorHoldsCluster(s: State, es: seq<Event>, t: State)
    requires Init(s) && Run(s, es, t) && TargetsStayAway(s, es) && t.worker.CreateJob?
    ensures t.cluster.inProgress == t.worker.name && PgOff(t)
    ensures forall n | n in t.restores && n !in t.jobs ::
              AboutToCreate(t.restores[n]) && t.restores[n].uid in t.resolvable ==> t.cluster.inProgress == n
  {
    InitInv(s);
    RunKeepsCreators(s, es, t);
    assert OffOnceRecorded(t);
  }

  // ---------- no Restore is deleted between recording its Job and finishing ----------

  ghost predicate NoMidRunDeletion(s: State, e: Event) {
    e.DeleteRestore? && e.name in s.restores ==>
      !(s.restores[e.name].jobRecorded && Unfinished(s.restores[e.name]))
  }

  ghost predicate StartedNotDeleted(s: State) {
    && (forall n | n in s.restores :: s.restores[n].jobRecorded && Unfinished(s.restores[n]) ==>
        !s.restores[n].deleting)
    && (RecordsJob(s.worker) ==> !s.worker.seen.deleting)
  }

  lemma WriteKeepsStartedNotDeleted(s: State)
    requires Inv(s) && StartedNotDeleted(s)
    requires s.worker.WriteStatus? || s.worker.AddFinalizer? || s.worker.RemoveFinalizer?
    ensures StartedNotDeleted(Perform(s))
  {
  }

  lemma WorkKeepsStartedNotDeleted(s: State)
    requires Inv(s) && StartedNotDeleted(s) && !s.worker.WriteStatus? && !s.worker.AddFinalizer?
    requires !s.worker.RemoveFinalizer?
    ensures StartedNotDeleted(Perform(s))
  {
  }

  lemma StepKeepsStartedNotDeleted(s: State, e: Event)
    requires Inv(s) && StartedNotDeleted(s) && Enabled(s, e) && NoMidRunDeletion(s, e)
    ensures StartedNotDeleted(Next(s, e))
  {
    if e.Work? && (s.worker.WriteStatus? || s.worker.AddFinalizer? || s.worker.RemoveFinalizer?) {
      WriteKeepsStartedNotDeleted(s);
    } else if e.Work? {
      WorkKeepsStartedNotDeleted(s);
    } else if !e.Start? && !e.CreateRestore? && !e.DeleteRestore? {
      var t := Next(s, e);
      assert t.restores == s.restores && (RecordsJob(t.worker) ==> t.worker == s.worker);
    }
  }

  /** With no deleted Restore started, only a holder's Job can be live, so nobody else can claim. */
  lemma NoHazardUndisturbed(s: State, e: Event)
    requires Inv(s) && Excl(s) && Creators(s) && StartedNotDeleted(s) && Enabled(s, e)
    ensures !Hazard(s, e)
  {
    if e.Work? && !s.worker.CreateJob? && SomeLive(s) {
      var m :| m in s.jobs && Live(s, m);
      assert Guarded(s, m) && JobBelongs(s, m);
    }
  }

  /** No PostgreSQL pod runs beside a restore Job's pod, and no two restore Jobs have a pod. */
  ghost predicate Exclusive(s: State) {
    && (s.jobPods != {} ==> s.pgPods == {})
    && (forall n, m | n in s.jobPods && m in s.jobPods :: n == m)
  }

  lemma ExclImpliesExclusive(s: State)
    requires Inv(s) && Excl(s)
    ensures Exclusive(s)
  {
    if s.jobPods != {} {
      var n :| n in s.jobPods;
      assert ActiveJob(s, n) && Live(s, n) && Guarded(s, n);
    }
  }

  ghost predicate Undisturbed(s: State, es: seq<Event>)
    decreases |es|
  {
    es != [] && Enabled(s, es[0]) ==>
      && NoFlap(s, es[0]) && NoMidRunDeletion(s, es[0])
      && Undisturbed(Next(s, es[0]), es[1..])
  }

  lemma {:induction false} UndisturbedRunKeeps(s: State, es: seq<Event>, t: State)
    requires Inv(s) && Excl(s) && Creators(s) && StartedNotDeleted(s)
    requires Run(s, es, t) && Undisturbed(s, es)
    ensures Inv(t) && Excl(t) && StartedNotDeleted(t)
    decreases |es|
  {
    if es != [] {
      StepKeepsInv(s, es[0]);
      NoHazardUndisturbed(s, es[0]);
      ExclusionStep(s, es[0]);
      StepKeepsCreators(s, es[0]);
      StepKeepsStartedNotDeleted(s, es[0]);
      UndisturbedRunKeeps(Next(s, es[0]), es[1..], t);
    }
  }

  /** Competing Restores, crashes between any two writes, Cluster reconciles, pods and Jobs in any
      order: as long as no Restore is deleted between recording its Job and finishing, and no
      vanished target comes back, a live restore Job has PostgreSQL off, is the only one, and its
      Restore holds restore-in-progress. */
  lemma RestoreExcludesPostgres(s: State, es: seq<Event>, t: State)
    requires Init(s) && Run(s, es, t) && Undisturbed(s, es)
    ensures Exclusive(t)
    ensures forall n | n in t.jobPods ::
              t.cluster.inProgress == n && n in t.restores && Unfinished(t.restores[n]) && t.restores[n].jobRecorded
  {
    InitInv(s);
    UndisturbedRunKeeps(s, es, t);
    ExclImpliesExclusive(t);
    forall n | n in t.jobPods
      ensures t.cluster.inProgress == n && n in t.restores && Unfinished(t.restores[n]) && t.restores[n].jobRecorded
    {
      assert ActiveJob(t, n) && Live(t, n) && Guarded(t, n) && JobBelongs(t, n);
    }
  }

  // ---------- one unfinished Restore at a time, deleted at any moment ----------

  ghost predicate Alone(s: State) {
    forall n, m | RestoreActive(s, n) && RestoreActive(s, m) :: n == m
  }

  ghost predicate OneAtATime(s: State, es: seq<Event>)
    decreases |es|
  {
    && Alone(s)
    && (es != [] && Enabled(s, es[0]) ==> NoFlap(s, es[0]) && OneAtATime(Next(s, es[0]), es[1..]))
  }

  lemma NoHazardAlone(s: State, e: Event)
    requires Inv(s) && Excl(s) && Creators(s) && Alone(s) && Enabled(s, e)
    ensures !Hazard(s, e)
  {
    if e.Work? && SomeLive(s) && (s.worker.Claim? || s.worker.Finish?) {
      var m :| m in s.jobs && Live(s, m);
      assert JobBelongs(s, m) && RestoreActive(s, m) && RestoreActive(s, s.worker.name);
    }
  }

  lemma {:induction false} OneAtATimeRunKeeps(s: State, es: seq<Event>, t: State)
    requires Inv(s) && Excl(s) && Creators(s) && Run(s, es, t) && OneAtATime(s, es)
    ensures Inv(t) && Excl(t)
    decreases |es|
  {
    if es != [] {
      StepKeepsInv(s, es[0]);
      NoHazardAlone(s, es[0]);
      ExclusionStep(s, es[0]);
      StepKeepsCreators(s, es[0]);
      OneAtATimeRunKeeps(Next(s, es[0]), es[1..], t);
    }
  }

  /** A Restore may be deleted mid-run, Job running, as long as no other is unfinished. */
  lemma DeletionMidRunIsSafeAlone(s: State, es: seq<Event>, t: State)
    requires Init(s) && Run(s, es, t) && OneAtATime(s, es)
    ensures Exclusive(t)
  {
    InitInv(s);
    OneAtATimeRunKeeps(s, es, t);
    ExclImpliesExclusive(t);
  }

  // ---------- any run ----------

  ghost predicate FreeOfHazards(s: State, es: seq<Event>)
    decreases |es|
  {
    es != [] && Enabled(s, es[0]) ==> !Hazard(s, es[0]) && FreeOfHazards(Next(s, es[0]), es[1..])
  }

  /** Deletions and vanishing targets included: the three hazards are the only way out. */
  lemma {:induction false} HazardsAreTheOnlyWayOut(s: State, es: seq<Event>, t: State)
    requires Inv(s) && Excl(s) && Run(s, es, t) && FreeOfHazards(s, es)
    ensures Inv(t) && Excl(t) && Exclusive(t)
    decreases |es|
  {
    if es == [] {
      ExclImpliesExclusive(s);
    } else {
      StepKeepsInv(s, es[0]);
      ExclusionStep(s, es[0]);
      HazardsAreTheOnlyWayOut(Next(s, es[0]), es[1..], t);
    }
  }
}
