/** When the Restore controller lets the Cluster start again. */
module RestoreHistory {
  import opened RestoreModel
  import opened RestoreSafety

  ghost predicate UidsDistinct(s: State) {
    forall n, m | n in s.restores && m in s.restores && s.restores[n].uid == s.restores[m].uid :: n == m
  }

  ghost predicate RanIsHistory(s: State) {
    && s.ran <= s.used
    && (forall n | n in s.jobs :: s.jobs[n].owner in s.ran)
    && (forall n | n in s.jobs && s.jobs[n].state.Complete? :: s.jobs[n].owner in s.won)
    && (forall n | n in s.restores && s.restores[n].uid in s.ran :: s.restores[n].jobRecorded)
  }

  /** While a Restore in CreatingJob holds the Cluster, the Job it created is still there. */
  ghost predicate CreatedJobKept(s: State) {
    var n := s.cluster.inProgress;
    n in s.restores && s.restores[n].uid in s.ran && s.restores[n].reason == CreatingJob ==>
      OwnJob(s, n, s.restores[n].uid)
  }

  /** A Job is being deleted only after its Restore gave the Cluster back. */
  ghost predicate DeletedJobsGaveBack(s: State) {
    forall n | n in s.restores && n in s.jobs ::
      s.jobs[n].owner == s.restores[n].uid && s.jobs[n].deleting ==> s.cluster.inProgress != n
  }

  predicate HistoryWorkerOk(s: State) {
    match s.worker
    case DeleteVolumes(n, seen, todo) => seen.uid in s.won && seen.jobRecorded
    case Claim(n, seen, read) => n in s.jobs ==> s.jobs[n].owner != seen.uid
    case WriteStatus(n, seen, next) => next.reason == CreatingJob ==> RecordsJob(s.worker) && !OwnJob(s, n, seen.uid)
    case Finish(n, seen, o, after) =>
      && (o.Released? && s.cluster.inProgress == n ==> seen.uid !in s.ran)
      && (o.RestoreSucceeded? ==> seen.uid in s.won && (s.cluster.inProgress == n ==> Standbys(s) == {} && PgOff(s)))
    case _ => true
  }

  ghost predicate History(s: State) {
    UidsDistinct(s) && RanIsHistory(s) && CreatedJobKept(s) && DeletedJobsGaveBack(s) && HistoryWorkerOk(s)
  }

  lemma InitHistory(s: State)
    requires Init(s)
    ensures History(s)
  {
  }

  lemma FinalizeKeepsHistory(s: State, n: string)
    requires OffOnceRecorded(s) && RanIsHistory(s) && CreatedJobKept(s) && DeletedJobsGaveBack(s)
    requires Enabled(s, Start(n)) && s.restores[n].deleting
    ensures HistoryWorkerOk(Next(s, Start(n)))
  {
  }

  lemma PrepareKeepsHistory(s: State, n: string)
    requires RanIsHistory(s) && OwnJobsRecorded(s)
    requires Enabled(s, Start(n)) && !s.restores[n].deleting && !s.restores[n].jobRecorded
    ensures HistoryWorkerOk(Next(s, Start(n)))
  {
  }

  lemma FollowKeepsHistory(s: State, n: string)
    requires OffOnceRecorded(s) && RanIsHistory(s) && CreatedJobKept(s)
    requires Enabled(s, Start(n)) && !s.restores[n].deleting && s.restores[n].jobRecorded
    ensures HistoryWorkerOk(Next(s, Start(n)))
  {
  }

  lemma StartKeepsHistory(s: State, n: string)
    requires Inv(s) && History(s) && Enabled(s, Start(n))
    ensures History(Next(s, Start(n)))
  {
    if s.restores[n].deleting {
      FinalizeKeepsHistory(s, n);
    } else if s.restores[n].jobRecorded {
      FollowKeepsHistory(s, n);
    } else {
      PrepareKeepsHistory(s, n);
    }
    var t := Next(s, Start(n));
    assert t.restores == s.restores && t.cluster == s.cluster && t.jobs == s.jobs && t.ran == s.ran;
    assert t.used == s.used && t.won == s.won;
  }

  lemma FinishKeepsHistory(s: State)
    requires Inv(s) && History(s) && s.worker.Finish?
    ensures History(Perform(s))
  {
    var t := Perform(s);
    assert t.restores == s.restores && t.jobs == s.jobs && t.ran == s.ran && t.won == s.won;
  }

  lemma ClaimKeepsHistory(s: State)
    requires Inv(s) && History(s) && s.worker.Claim?
    ensures History(Perform(s))
  {
    var t := Perform(s);
    assert t.restores == s.restores && t.jobs == s.jobs && t.ran == s.ran && t.won == s.won;
  }

  lemma WriteStatusKeepsHistory(s: State)
    requires WorkerOk(s) && UidsDistinct(s) && RanIsHistory(s) && CreatedJobKept(s) && DeletedJobsGaveBack(s)
    requires HistoryWorkerOk(s) && s.worker.WriteStatus?
    ensures History(Perform(s))
  {
    var t, n := Perform(s), s.worker.name;
    assert t.cluster == s.cluster && t.jobs == s.jobs && t.ran == s.ran && t.won == s.won && t.worker == Idle;
    if Unchanged(s, n, s.worker.seen) {
      assert forall m | m in t.restores && m != n :: m in s.restores && t.restores[m] == s.restores[m];
    } else {
      assert t.restores == s.restores;
    }
  }

  lemma CreateJobKeepsHistory(s: State)
    requires Inv(s) && History(s) && s.worker.CreateJob?
    ensures History(Perform(s))
  {
    var t := Perform(s);
    assert t.restores == s.restores && t.cluster == s.cluster && t.won == s.won;
  }

  lemma StopJobKeepsHistory(s: State)
    requires Inv(s) && History(s) && s.worker.StopJob?
    ensures History(Perform(s))
  {
    var t := Perform(s);
    assert t.restores == s.restores && t.cluster == s.cluster && t.ran == s.ran && t.won == s.won;
  }

  lemma OtherWorkKeepsHistory(s: State)
    requires Inv(s) && History(s)
    requires s.worker.Record? || s.worker.DeleteVolumes?
    ensures History(Perform(s))
  {
    var t := Perform(s);
    assert t.jobs == s.jobs && t.ran == s.ran && t.won == s.won && t.cluster.inProgress == s.cluster.inProgress;
  }

  lemma RemoveFinalizerKeepsHistory(s: State)
    requires UidsDistinct(s) && RanIsHistory(s) && CreatedJobKept(s) && DeletedJobsGaveBack(s)
    requires s.worker.RemoveFinalizer?
    ensures History(Perform(s))
  {
    var t := Perform(s);
    assert t.jobs == s.jobs && t.ran == s.ran && t.won == s.won && t.cluster == s.cluster && t.worker == Idle;
    assert forall m | m in t.restores :: m in s.restores && t.restores[m] == s.restores[m];
  }

  lemma FinalizerAdded(s: State, t: State, n: string)
    requires n in s.restores && t == s.(restores := s.restores[n := s.restores[n].(finalizer := true)], worker := Idle)
    requires UidsDistinct(s) && RanIsHistory(s) && CreatedJobKept(s) && DeletedJobsGaveBack(s)
    ensures History(t)
  {
    assert t.jobs == s.jobs && t.ran == s.ran && t.won == s.won && t.cluster == s.cluster;
    assert t.restores.Keys == s.restores.Keys;
    assert forall m | m in t.restores :: t.restores[m] == s.restores[m].(finalizer := t.restores[m].finalizer);
  }

  lemma AddFinalizerKeepsHistory(s: State)
    requires UidsDistinct(s) && RanIsHistory(s) && CreatedJobKept(s) && DeletedJobsGaveBack(s) && s.worker.AddFinalizer?
    ensures History(Perform(s))
  {
    var t, n := Perform(s), s.worker.name;
    assert t.jobs == s.jobs && t.ran == s.ran && t.won == s.won && t.cluster == s.cluster && t.worker == Idle;
    if Unchanged(s, n, s.worker.seen) {
      FinalizerAdded(s, t, n);
    } else {
      assert t.restores == s.restores;
    }
  }

  lemma CreateRestoreKeepsHistory(s: State, n: string, u: string)
    requires UidsKnown(s) && History(s) && Enabled(s, CreateRestore(n, u))
    ensures History(Next(s, CreateRestore(n, u)))
  {
    var t := Next(s, CreateRestore(n, u));
    assert t.jobs == s.jobs && t.ran == s.ran && t.won == s.won && t.cluster == s.cluster && t.worker == s.worker;
    assert forall m | m in t.restores && m != n :: m in s.restores && t.restores[m] == s.restores[m];
  }

  lemma DeleteRestoreKeepsHistory(s: State, n: string)
    requires History(s) && Enabled(s, DeleteRestore(n))
    ensures History(Next(s, DeleteRestore(n)))
  {
    var t := Next(s, DeleteRestore(n));
    assert t.jobs == s.jobs && t.ran == s.ran && t.won == s.won && t.cluster == s.cluster && t.worker == s.worker;
    assert forall m | m in t.restores && m != n :: m in s.restores && t.restores[m] == s.restores[m];
  }

  lemma JobsKeepHistory(s: State, e: Event)
    requires Inv(s) && History(s) && Enabled(s, e)
    requires e.JobPodStarts? || e.JobPodEnds? || e.JobCompletes? || e.JobFails?
    ensures History(Next(s, e))
  {
    var t := Next(s, e);
    assert t.restores == s.restores && t.cluster == s.cluster && t.ran == s.ran && t.worker == s.worker;
  }

  lemma JobRemovedKeepsHistory(s: State, n: string)
    requires Inv(s) && History(s) && Enabled(s, JobRemoved(n))
    ensures History(Next(s, JobRemoved(n)))
  {
    var t := Next(s, JobRemoved(n));
    assert t.restores == s.restores && t.cluster == s.cluster && t.ran == s.ran && t.worker == s.worker;
  }

  lemma StartingKeepsHistory(s: State, e: Event)
    requires Inv(s) && History(s) && Enabled(s, e) && (e.ClusterReconcile? || e.StartPod?)
    ensures History(Next(s, e))
  {
    var t := Next(s, e);
    assert t.restores == s.restores && t.cluster == s.cluster && t.jobs == s.jobs && t.ran == s.ran && t.won == s.won;
    assert t.used == s.used && t.worker == s.worker;
  }

  lemma StoppingKeepsHistory(s: State, e: Event)
    requires History(s) && Enabled(s, e)
    requires e.DeleteSts? || e.RefreshStsStatus? || e.StopPod? || e.MarkVolume? || e.RemoveVolume? || e.DeleteVolume?
    ensures History(Next(s, e))
  {
    var t := Next(s, e);
    assert t.restores == s.restores && t.cluster == s.cluster && t.jobs == s.jobs && t.ran == s.ran && t.won == s.won;
    assert t.used == s.used && Standbys(t) <= Standbys(s) && (PgOff(s) ==> PgOff(t));
  }

  lemma EditsKeepHistory(s: State, e: Event)
    requires Inv(s) && History(s) && Enabled(s, e)
    requires e.SetAllow? || e.ClearInterrupted? || e.TargetAppears? || e.TargetVanishes? || e.Crash?
    ensures History(Next(s, e))
  {
  }

  lemma WorkKeepsHistory(s: State)
    requires Inv(s) && History(s) && !s.worker.Idle?
    ensures History(Perform(s))
  {
    match s.worker
    case Finish(_, _, _, _) => FinishKeepsHistory(s);
    case Claim(_, _, _) => ClaimKeepsHistory(s);
    case WriteStatus(_, _, _) => WriteStatusKeepsHistory(s);
    case CreateJob(_, _) => CreateJobKeepsHistory(s);
    case StopJob(_, _, _) => StopJobKeepsHistory(s);
    case AddFinalizer(_, _) => AddFinalizerKeepsHistory(s);
    case RemoveFinalizer(_, _) => RemoveFinalizerKeepsHistory(s);
    case _ => OtherWorkKeepsHistory(s);
  }

  lemma StepKeepsHistory(s: State, e: Event)
    requires Inv(s) && History(s) && Enabled(s, e)
    ensures History(Next(s, e))
  {
    match e
    case Start(n) => StartKeepsHistory(s, n);
    case Work => WorkKeepsHistory(s);
    case CreateRestore(n, u) => CreateRestoreKeepsHistory(s, n, u);
    case DeleteRestore(n) => DeleteRestoreKeepsHistory(s, n);
    case JobPodStarts(_) => JobsKeepHistory(s, e);
    case JobPodEnds(_) => JobsKeepHistory(s, e);
    case JobCompletes(_) => JobsKeepHistory(s, e);
    case JobFails(_) => JobsKeepHistory(s, e);
    case JobRemoved(n) => JobRemovedKeepsHistory(s, n);
    case SetAllow(_) => EditsKeepHistory(s, e);
    case ClearInterrupted => EditsKeepHistory(s, e);
    case TargetAppears(_) => EditsKeepHistory(s, e);
    case TargetVanishes(_) => EditsKeepHistory(s, e);
    case Crash => EditsKeepHistory(s, e);
    case ClusterReconcile(_) => StartingKeepsHistory(s, e);
    case StartPod(_) => StartingKeepsHistory(s, e);
    case _ => StoppingKeepsHistory(s, e);
  }

  lemma {:induction false} RunKeepsHistory(s: State, es: seq<Event>, t: State)
    requires Inv(s) && History(s) && Run(s, es, t)
    ensures Inv(t) && History(t)
    decreases |es|
  {
    if es != [] {
      StepKeepsInv(s, es[0]);
      StepKeepsHistory(s, es[0]);
      RunKeepsHistory(Next(s, es[0]), es[1..], t);
    }
  }

  lemma UnpausingWrite(t: State)
    requires WellNamed(t) && WorkerOk(t) && HistoryWorkerOk(t) && Paused(t.cluster) && !Paused(Perform(t).cluster)
    ensures t.worker.Finish?
    ensures match t.worker.outcome
            case Released => t.cluster.inProgress == t.worker.name && t.cluster.interrupted == ""
                             && t.worker.seen.uid !in t.ran
            case RestoreSucceeded =>
              t.worker.seen.uid in t.won && (t.cluster.inProgress == t.worker.name ==> Standbys(t) == {})
            case _ => false
  {
  }

  /** In every run, the operator lets a paused Cluster start again in one place only: the end of a
      Restore that never created a Job, or of one whose Job completed, its standbys' volumes listed
      and none left. When that Restore held the Cluster, none is left at that very moment. */
  lemma WhoUnpauses(s: State, es: seq<Event>, t: State, e: Event)
    requires Init(s) && Run(s, es, t) && Enabled(t, e)
    requires e.Start? || e.Work? || e.DeleteVolume? || e.Crash? || e.ClusterReconcile?
    requires Paused(t.cluster) && !Paused(Next(t, e).cluster)
    ensures e.Work? && t.worker.Finish?
    ensures match t.worker.outcome
            case Released => t.cluster.inProgress == t.worker.name && t.cluster.interrupted == ""
                             && t.worker.seen.uid !in t.ran
            case RestoreSucceeded =>
              t.worker.seen.uid in t.won
              && (t.cluster.inProgress == t.worker.name ==> forall i <- t.volumes :: i == 0)
            case _ => false
  {
    InitInv(s);
    InitHistory(s);
    RunKeepsHistory(s, es, t);
    if e.Work? {
      UnpausingWrite(t);
      assert Standbys(t) == {} ==> forall i <- t.volumes :: i == 0 by {
        assert forall i <- t.volumes :: i == 0 || i in Standbys(t);
      }
    }
  }

  lemma ClearingWrite(t: State)
    requires Inv(t) && HistoryWorkerOk(t) && t.cluster.interrupted != "" && Perform(t).cluster.interrupted == ""
    ensures t.worker.Finish? && t.worker.outcome.RestoreSucceeded? && t.worker.seen.uid in t.won
  {
    if t.worker.Finish? {
      assert Matches(t, t.worker.name, t.worker.seen) && t.worker.name != "";
    }
  }

  /** In every run, the mark restore-interrupted goes away only by a user's hand or by the end of a
      Restore whose own Job completed: no release and no failed or interrupted end clears one. */
  lemma WhoClearsTheMark(s: State, es: seq<Event>, t: State, e: Event)
    requires Init(s) && Run(s, es, t) && Enabled(t, e)
    requires t.cluster.interrupted != "" && Next(t, e).cluster.interrupted == ""
    ensures e.ClearInterrupted?
            || (e.Work? && t.worker.Finish? && t.worker.outcome.RestoreSucceeded? && t.worker.seen.uid in t.won)
  {
    InitInv(s);
    InitHistory(s);
    RunKeepsHistory(s, es, t);
    if e.Work? {
      ClearingWrite(t);
    }
  }
}
