/** PostgreSQL stays off while a restore Job may write the data volume. */
module RestoreSafety {
  import opened Option
  import opened RestoreModel

  // ---------- what every run keeps ----------

  predicate PgOff(s: State) {
    s.pgPods == {} && (s.sts.Some? ==> s.sts.value.replicas == 0)
  }

  ghost predicate WellNamed(s: State) {
    forall n | n in s.restores :: n != "" && '/' !in n
  }

  ghost predicate PodsHaveJobs(s: State) {
    forall n | n in s.jobPods :: ActiveJob(s, n)
  }

  /** restore-in-progress names an unfinished Restore that its finalizer keeps. */
  ghost predicate HolderExists(s: State) {
    s.cluster.inProgress != "" ==>
      RestoreActive(s, s.cluster.inProgress) && s.restores[s.cluster.inProgress].finalizer
  }

  ghost predicate StartedHaveFinalizer(s: State) {
    forall n | n in s.restores :: s.restores[n].jobRecorded ==> s.restores[n].finalizer
  }

  predicate JobBelongs(s: State, n: string)
    requires n in s.jobs
  {
    && n in s.restores && s.restores[n].uid == s.jobs[n].owner
    && Unfinished(s.restores[n]) && s.restores[n].jobRecorded
  }

  ghost predicate ActiveJobsBelong(s: State) {
    forall n | n in s.jobs :: ActiveJob(s, n) ==> JobBelongs(s, n)
  }

  /** A Job of an existing Restore was recorded before it was created. */
  ghost predicate OwnJobsRecorded(s: State) {
    forall n | n in s.restores && n in s.jobs ::
      s.jobs[n].owner == s.restores[n].uid ==> s.restores[n].jobRecorded
  }

  ghost predicate UidsKnown(s: State) {
    && (forall n | n in s.restores :: s.restores[n].uid in s.used)
    && (forall n | n in s.jobs :: s.jobs[n].owner in s.used)
  }

  /** PostgreSQL is off from the moment a Restore that holds the Cluster records its Job. */
  ghost predicate OffOnceRecorded(s: State) {
    s.cluster.inProgress in s.restores && s.restores[s.cluster.inProgress].jobRecorded ==> PgOff(s)
  }

  /** The running reconcile's copy of its Restore is current, but for a deletion. */
  predicate Matches(s: State, n: string, seen: Restore) {
    n in s.restores && (s.restores[n] == seen || s.restores[n] == seen.(deleting := true))
  }

  predicate Idling(w: Worker) {
    w.Idle? || w.AddFinalizer?
  }

  predicate StopsJob(after: After) {
    after == StopTheJob(true)
  }

  /** What the branches taken so far say about the objects as they were read. */
  predicate BranchOk(w: Worker) {
    && (!Idling(w) ==> w.seen.finalizer && (Unfinished(w.seen) || w.RemoveFinalizer?))
    && match w
       case Claim(n, seen, read) => !seen.jobRecorded && read.inProgress == ""
       case WriteStatus(n, seen, next) =>
         && next.uid == seen.uid && next.finalizer && next.deleting == seen.deleting
         && (seen.jobRecorded ==> next.jobRecorded)
       case CreateJob(n, seen) => seen.jobRecorded
       case Finish(n, seen, o, after) => after.DropFinalizer? || after.StopTheJob? ==> seen.deleting
       case Record(n, seen, o, after) => after.DropFinalizer? || after.StopTheJob? ==> seen.deleting
       case StopJob(n, seen, hadJob) => seen.deleting
       case RemoveFinalizer(n, seen) => seen.deleting
       case _ => true
  }

  /** The reconcile found no Job of its Restore that may run. */
  predicate FoundNoActiveJob(w: Worker) {
    match w
    case WriteStatus(n, seen, next) => !Unfinished(next)
    case DeleteVolumes(n, seen, todo) => true
    case Finish(n, seen, o, after) => !o.Interrupted? || !StopsJob(after)
    case Record(n, seen, o, after) => !StopsJob(after)
    case StopJob(n, seen, hadJob) => !hadJob
    case RemoveFinalizer(n, seen) => true
    case _ => false
  }

  /** The reconcile has given the Cluster back, or its Restore had finished. */
  predicate GaveBack(w: Worker) {
    w.Record? || w.StopJob? || w.RemoveFinalizer? || (w.WriteStatus? && !Unfinished(w.next))
  }

  predicate RecordsJob(w: Worker) {
    w.WriteStatus? && w.next.jobRecorded && !w.seen.jobRecorded
  }

  predicate WorkerOk(s: State) {
    && BranchOk(s.worker)
    && (!Idling(s.worker) ==>
        && Matches(s, s.worker.name, s.worker.seen)
        && (FoundNoActiveJob(s.worker) ==> !ActiveJob(s, s.worker.name))
        && (GaveBack(s.worker) ==> s.cluster.inProgress != s.worker.name)
        && (RecordsJob(s.worker) ==> s.cluster.inProgress == s.worker.name && PgOff(s))
        && (s.worker.Finish? && s.worker.outcome.Released? ==> !OwnJob(s, s.worker.name, s.worker.seen.uid)))
  }

  ghost predicate Inv(s: State) {
    && WellNamed(s) && PodsHaveJobs(s) && HolderExists(s) && StartedHaveFinalizer(s)
    && ActiveJobsBelong(s) && OwnJobsRecorded(s) && UidsKnown(s) && OffOnceRecorded(s) && WorkerOk(s)
  }

  lemma InitInv(s: State)
    requires Init(s)
    ensures Inv(s)
  {
  }

  lemma FinalizeKeepsWorkerOk(s: State, n: string)
    requires Inv(s) && Enabled(s, Start(n)) && s.restores[n].deleting
    ensures WorkerOk(Next(s, Start(n)))
  {
  }

  lemma PrepareKeepsWorkerOk(s: State, n: string)
    requires Inv(s) && Enabled(s, Start(n)) && !s.restores[n].deleting && !s.restores[n].jobRecorded
    ensures WorkerOk(Next(s, Start(n)))
  {
  }

  lemma FollowKeepsWorkerOk(s: State, n: string)
    requires Inv(s) && Enabled(s, Start(n)) && !s.restores[n].deleting && s.restores[n].jobRecorded
    ensures WorkerOk(Next(s, Start(n)))
  {
  }

  lemma StartKeepsInv(s: State, n: string)
    requires Inv(s) && Enabled(s, Start(n))
    ensures Inv(Next(s, Start(n)))
  {
    if s.restores[n].deleting {
      FinalizeKeepsWorkerOk(s, n);
    } else if s.restores[n].jobRecorded {
      FollowKeepsWorkerOk(s, n);
    } else {
      PrepareKeepsWorkerOk(s, n);
    }
    NewWorkerKeepsInv(s, Next(s, Start(n)));
  }

  /** All but the worker's own condition depends on other parts of the state. */
  lemma NewWorkerKeepsInv(s: State, t: State)
    requires Inv(s) && t == s.(worker := t.worker) && WorkerOk(t)
    ensures Inv(t)
  {
    assert t.restores == s.restores && t.cluster == s.cluster && t.jobs == s.jobs && t.jobPods == s.jobPods;
    assert t.sts == s.sts && t.pgPods == s.pgPods && t.used == s.used;
  }

  lemma FinishKeepsInv(s: State)
    requires Inv(s) && s.worker.Finish?
    ensures Inv(Perform(s))
  {
  }

  lemma ClaimKeepsInv(s: State)
    requires Inv(s) && (s.worker.Claim? || s.worker.AddFinalizer?)
    ensures Inv(Perform(s))
  {
  }

  lemma WriteStatusKeepsInv(s: State)
    requires Inv(s) && s.worker.WriteStatus?
    ensures Inv(Perform(s))
  {
  }

  lemma CreateJobKeepsInv(s: State)
    requires Inv(s) && s.worker.CreateJob?
    ensures Inv(Perform(s))
  {
  }

  lemma StopJobKeepsInv(s: State)
    requires Inv(s) && s.worker.StopJob?
    ensures Inv(Perform(s))
  {
  }

  lemma RecordKeepsInv(s: State)
    requires Inv(s) && (s.worker.Record? || s.worker.DeleteVolumes?)
    ensures Inv(Perform(s))
  {
  }

  lemma RemoveFinalizerKeepsInv(s: State)
    requires Inv(s) && s.worker.RemoveFinalizer?
    ensures Inv(Perform(s))
  {
  }

  lemma WorkKeepsInv(s: State)
    requires Inv(s) && Enabled(s, Work)
    ensures Inv(Next(s, Work))
  {
    match s.worker
    case Finish(_, _, _, _) => FinishKeepsInv(s);
    case Claim(_, _, _) => ClaimKeepsInv(s);
    case AddFinalizer(_, _) => ClaimKeepsInv(s);
    case WriteStatus(_, _, _) => WriteStatusKeepsInv(s);
    case CreateJob(_, _) => CreateJobKeepsInv(s);
    case StopJob(_, _, _) => StopJobKeepsInv(s);
    case RemoveFinalizer(_, _) => RemoveFinalizerKeepsInv(s);
    case _ => RecordKeepsInv(s);
  }

  lemma CreateRestoreKeepsInv(s: State, n: string, u: string)
    requires Inv(s) && Enabled(s, CreateRestore(n, u))
    ensures Inv(Next(s, CreateRestore(n, u)))
  {
  }

  lemma DeleteRestoreKeepsInv(s: State, n: string)
    requires Inv(s) && Enabled(s, DeleteRestore(n))
    ensures Inv(Next(s, DeleteRestore(n)))
  {
  }

  lemma ClusterEditsKeepInv(s: State, e: Event)
    requires Inv(s) && Enabled(s, e) && (e.SetAllow? || e.ClearInterrupted?)
    ensures Inv(Next(s, e))
  {
  }

  lemma OtherEditsKeepInv(s: State, e: Event)
    requires Inv(s) && Enabled(s, e)
    requires e.TargetAppears? || e.TargetVanishes? || e.MarkVolume? || e.RemoveVolume?
    ensures Inv(Next(s, e))
  {
  }

  lemma PausesKeepInv(s: State, e: Event)
    requires Inv(s) && Enabled(s, e) && (e.DeleteVolume? || e.Crash?)
    ensures Inv(Next(s, e))
  {
  }

  lemma PodsKeepInv(s: State, e: Event)
    requires Inv(s) && Enabled(s, e)
    requires e.DeleteSts? || e.ClusterReconcile? || e.RefreshStsStatus? || e.StartPod? || e.StopPod?
    ensures Inv(Next(s, e))
  {
  }

  lemma JobPodsKeepInv(s: State, e: Event)
    requires Inv(s) && Enabled(s, e) && (e.JobPodStarts? || e.JobPodEnds?)
    ensures Inv(Next(s, e))
  {
    var t := Next(s, e);
    assert t.restores == s.restores && t.cluster == s.cluster && t.jobs == s.jobs && t.worker == s.worker;
  }

  lemma JobEndKeepsInv(s: State, e: Event)
    requires Inv(s) && Enabled(s, e) && (e.JobCompletes? || e.JobFails?)
    ensures Inv(Next(s, e))
  {
    var t := Next(s, e);
    assert t.restores == s.restores && t.cluster == s.cluster && t.worker == s.worker;
    assert t.jobs.Keys == s.jobs.Keys && forall n | n in s.jobs && n != e.name :: t.jobs[n] == s.jobs[n];
    assert t.jobs[e.name].owner == s.jobs[e.name].owner && !ActiveJob(t, e.name);
  }

  lemma JobRemovedKeepsInv(s: State, n: string)
    requires Inv(s) && Enabled(s, JobRemoved(n))
    ensures Inv(Next(s, JobRemoved(n)))
  {
    var t := Next(s, JobRemoved(n));
    assert t.restores == s.restores && t.cluster == s.cluster && t.worker == s.worker && t.jobPods == s.jobPods;
    assert forall m | m in t.jobs :: m in s.jobs && t.jobs[m] == s.jobs[m];
  }

  lemma StepKeepsInv(s: State, e: Event)
    requires Inv(s) && Enabled(s, e)
    ensures Inv(Next(s, e))
  {
    match e
    case Start(n) => StartKeepsInv(s, n);
    case Work => WorkKeepsInv(s);
    case CreateRestore(n, u) => CreateRestoreKeepsInv(s, n, u);
    case DeleteRestore(n) => DeleteRestoreKeepsInv(s, n);
    case SetAllow(_) => ClusterEditsKeepInv(s, e);
    case ClearInterrupted => ClusterEditsKeepInv(s, e);
    case DeleteVolume(_) => PausesKeepInv(s, e);
    case Crash => PausesKeepInv(s, e);
    case TargetAppears(_) => OtherEditsKeepInv(s, e);
    case TargetVanishes(_) => OtherEditsKeepInv(s, e);
    case MarkVolume(_) => OtherEditsKeepInv(s, e);
    case RemoveVolume(_) => OtherEditsKeepInv(s, e);
    case DeleteSts => PodsKeepInv(s, e);
    case ClusterReconcile(_) => PodsKeepInv(s, e);
    case RefreshStsStatus => PodsKeepInv(s, e);
    case StartPod(_) => PodsKeepInv(s, e);
    case StopPod(_) => PodsKeepInv(s, e);
    case JobRemoved(n) => JobRemovedKeepsInv(s, n);
    case JobCompletes(_) => JobEndKeepsInv(s, e);
    case JobFails(_) => JobEndKeepsInv(s, e);
    case _ => JobPodsKeepInv(s, e);
  }

  // ---------- mutual exclusion ----------

  /** The Cluster stays off on behalf of this Job: its Restore holds the Cluster, or it is being
      deleted and left restore-interrupted behind with nobody else holding the Cluster. */
  predicate Guarded(s: State, n: string) {
    && PgOff(s)
    && (s.cluster.inProgress == n
        || (s.cluster.inProgress == "" && s.cluster.interrupted != "" && n in s.restores && s.restores[n].deleting))
  }

  ghost predicate Excl(s: State) {
    && (forall n | n in s.jobs && Live(s, n) :: Guarded(s, n))
    && (forall n, m | n in s.jobs && m in s.jobs && Live(s, n) && Live(s, m) :: n == m)
  }

  ghost predicate SomeLive(s: State) {
    exists n :: n in s.jobs && Live(s, n)
  }

  /** A Restore that is being deleted by now, on a Cluster that nobody holds, that an earlier end has
      marked as interrupted and that no Job uses. */
  ghost predicate MarkedAndDeleted(s: State, n: string) {
    && n in s.restores && s.restores[n].deleting
    && s.cluster.inProgress == "" && s.cluster.interrupted != "" && PgOff(s) && !SomeLive(s)
  }

  /** The three writes that give the exclusion up, by what holds just before them: a Restore claims
      the Cluster while another Restore's Job may still run; a Restore that already succeeded
      succeeds once more while only restore-interrupted guards another Restore's Job; a Restore
      creates its Job without holding the Cluster (a mark may stand in for that while it is being
      deleted). */
  ghost predicate Hazard(s: State, e: Event) {
    e.Work? &&
    match s.worker
    case Claim(n, seen, read) => s.cluster == read && SomeLive(s)
    case Finish(n, seen, o, after) => o.RestoreSucceeded? && s.cluster.inProgress == "" && SomeLive(s)
    case CreateJob(n, seen) => n !in s.jobs && s.cluster.inProgress != n && !MarkedAndDeleted(s, n)
    case _ => false
  }

  lemma ClaimExclusion(s: State)
    requires Inv(s) && Excl(s) && s.worker.Claim?
    ensures Excl(Perform(s)) <==> !Hazard(s, Work)
  {
    var t := Perform(s);
    assert forall n | n in s.jobs :: Live(t, n) == Live(s, n);
    if Hazard(s, Work) {
      var m :| m in s.jobs && Live(s, m);
      assert !Guarded(t, m);
    }
  }

  lemma FinishExclusion(s: State)
    requires Inv(s) && Excl(s) && s.worker.Finish?
    ensures Excl(Perform(s)) <==> !Hazard(s, Work)
  {
    var t := Perform(s);
    assert forall n | n in s.jobs :: Live(t, n) == Live(s, n);
    if SomeLive(s) {
      var m :| m in s.jobs && Live(s, m);
      assert Guarded(s, m) && JobBelongs(s, m);
      assert Guarded(t, m) <==> !Hazard(s, Work);
    }
  }

  lemma NewJobExclusion(s: State)
    requires Inv(s) && Excl(s) && s.worker.CreateJob? && s.worker.name !in s.jobs
    ensures Excl(Perform(s)) <==> Guarded(s, s.worker.name) && !SomeLive(s)
  {
    var t, n := Perform(s), s.worker.name;
    assert Live(t, n) && Guarded(t, n) == Guarded(s, n);
    assert forall m | m in s.jobs :: Live(t, m) == Live(s, m) && Guarded(t, m) == Guarded(s, m);
  }

  /** Whoever holds the Cluster may create its Job; of the others none that is not being deleted. */
  lemma CreateJobExclusion(s: State)
    requires Inv(s) && Excl(s) && s.worker.CreateJob?
    ensures s.cluster.inProgress == s.worker.name ==> Excl(Perform(s))
    ensures s.worker.name !in s.jobs && s.cluster.inProgress != s.worker.name && !s.restores[s.worker.name].deleting ==>
              !Excl(Perform(s))
    ensures Excl(Perform(s)) <==> !Hazard(s, Work)
  {
    var n := s.worker.name;
    if n !in s.jobs {
      NewJobExclusion(s);
      if s.cluster.inProgress == n {
        assert OffOnceRecorded(s) && PgOff(s);
        assert forall m | m in s.jobs && Live(s, m) :: Guarded(s, m);
      }
    }
  }

  lemma OtherWorkExclusion(s: State)
    requires Inv(s) && Excl(s)
    requires s.worker.AddFinalizer? || s.worker.WriteStatus? || s.worker.RemoveFinalizer?
    ensures Excl(Perform(s))
  {
    var t := Perform(s);
    forall n | n in t.jobs && Live(t, n)
      ensures n in s.jobs && Live(s, n) && Guarded(t, n)
    {
      assert Guarded(s, n) && JobBelongs(s, n);
    }
  }

  lemma SettledWorkExclusion(s: State)
    requires Inv(s) && Excl(s)
    requires s.worker.DeleteVolumes? || s.worker.Record? || s.worker.StopJob?
    ensures Excl(Perform(s))
  {
    var t := Perform(s);
    assert t.restores == s.restores;
    forall n | n in t.jobs && Live(t, n)
      ensures n in s.jobs && Live(s, n) && Guarded(t, n)
    {
    }
  }

  lemma EnvironmentExclusion(s: State, e: Event)
    requires Inv(s) && Excl(s) && Enabled(s, e) && !e.Work?
    ensures Excl(Next(s, e))
  {
    var t := Next(s, e);
    forall n | n in t.jobs && Live(t, n)
      ensures n in s.jobs && Live(s, n) && Guarded(t, n)
    {
      assert Guarded(s, n) && JobBelongs(s, n);
    }
  }

  /** Exactly the three hazards break the exclusion, in every state a run can reach. */
  lemma ExclusionStep(s: State, e: Event)
    requires Inv(s) && Excl(s) && Enabled(s, e)
    ensures Excl(Next(s, e)) <==> !Hazard(s, e)
  {
    if e.Work? {
      match s.worker
      case Claim(_, _, _) => ClaimExclusion(s);
      case Finish(_, _, _, _) => FinishExclusion(s);
      case CreateJob(_, _) => CreateJobExclusion(s);
      case DeleteVolumes(_, _, _) => SettledWorkExclusion(s);
      case Record(_, _, _, _) => SettledWorkExclusion(s);
      case StopJob(_, _, _) => SettledWorkExclusion(s);
      case _ => OtherWorkExclusion(s);
    } else {
      EnvironmentExclusion(s, e);
    }
  }
}
