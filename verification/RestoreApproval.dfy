/** A standing approval: the allow-restore annotation is set to the same name, without a UID, again
    and again (kept in a manifest and re-applied). */
module RestoreApproval {
  import opened RestoreModel
  import opened RestoreSafety
  import opened RestoreHistory

  /** The Restore was confirmed: it holds the Cluster or recorded its Job. */
  predicate Underway(s: State, n: string) {
    n in s.restores && Unfinished(s.restores[n]) && (s.restores[n].jobRecorded || s.cluster.inProgress == n)
  }

  ghost predicate OnlyApproved(s: State, approved: string) {
    && s.cluster.allow in {"", approved}
    && s.cluster.inProgress in {"", approved}
    && (forall m | m in s.restores && s.restores[m].jobRecorded :: m == approved)
  }

  /** Everything that ran belongs to the Restore under way, or to the last one recorded. */
  ghost predicate RanOnce(s: State, approved: string) {
    && (Underway(s, approved) ==>
          && s.ran <= {s.restores[approved].uid}
          && (s.cluster.last.LastRestore? ==> s.cluster.last.uid == s.restores[approved].uid))
    && (s.cluster.last.LastRestore? ==> s.ran <= {s.cluster.last.uid})
    && (s.cluster.last.Never? ==> forall u | u in s.ran :: approved in s.restores && s.restores[approved].uid == u)
  }

  /** Nobody whose Job ran is forgotten before status.lastRestore is written. */
  ghost predicate RecordedBeforeForgotten(s: State) {
    s.cluster.last.Never? ==>
      && (forall n | n in s.restores && s.restores[n].uid in s.ran :: Unfinished(s.restores[n]))
      && (forall n | n in s.restores && s.restores[n].uid in s.ran ::
            s.restores[n].reason == CreatingJob ==> OwnJob(s, n, s.restores[n].uid))
      && (forall n | n in s.restores && n in s.jobs ::
            s.jobs[n].owner == s.restores[n].uid ==> !s.jobs[n].deleting)
  }

  predicate ApprovalWorkerOk(s: State) {
    match s.worker
    case Claim(n, seen, read) => Confirmed(read, n, seen.uid)
    case WriteStatus(n, seen, next) =>
      && (!Unfinished(next) && s.cluster.last.Never? ==> seen.uid !in s.ran)
      && (next.reason == CreatingJob ==> RecordsJob(s.worker))
    case Finish(n, seen, o, after) =>
      if o.Released? then !after.StopTheJob? && (s.cluster.last.Never? ==> seen.uid !in s.ran) else seen.jobRecorded
    case Record(n, seen, o, after) => seen.jobRecorded
    case StopJob(n, seen, hadJob) => !s.cluster.last.Never?
    case RemoveFinalizer(n, seen) => s.cluster.last.Never? ==> seen.uid !in s.ran
    case _ => true
  }

  ghost predicate Standing(s: State, approved: string) {
    && OnlyApproved(s, approved) && RanOnce(s, approved) && RecordedBeforeForgotten(s) && ApprovalWorkerOk(s)
  }

  lemma FinalizeKeepsStanding(s: State, n: string, approved: string)
    requires Inv(s) && History(s) && Standing(s, approved) && Enabled(s, Start(n)) && s.restores[n].deleting
    ensures ApprovalWorkerOk(Next(s, Start(n)))
  {
  }

  lemma PrepareKeepsStanding(s: State, n: string, approved: string)
    requires Inv(s) && History(s) && Standing(s, approved) && Enabled(s, Start(n)) && !s.restores[n].deleting
    requires !s.restores[n].jobRecorded
    ensures ApprovalWorkerOk(Next(s, Start(n)))
  {
  }

  lemma FollowKeepsStanding(s: State, n: string, approved: string)
    requires Inv(s) && History(s) && Standing(s, approved) && Enabled(s, Start(n)) && !s.restores[n].deleting
    requires s.restores[n].jobRecorded
    ensures ApprovalWorkerOk(Next(s, Start(n)))
  {
  }

  lemma StartKeepsStanding(s: State, n: string, approved: string)
    requires Inv(s) && History(s) && Standing(s, approved) && Enabled(s, Start(n))
    ensures Standing(Next(s, Start(n)), approved)
  {
    if s.restores[n].deleting {
      FinalizeKeepsStanding(s, n, approved);
    } else if s.restores[n].jobRecorded {
      FollowKeepsStanding(s, n, approved);
    } else {
      PrepareKeepsStanding(s, n, approved);
    }
    var t := Next(s, Start(n));
    SameButWorker(s, t, approved);
  }

  /** All but the worker's own condition depends on other parts of the state. */
  lemma SameButWorker(s: State, t: State, approved: string)
    requires Standing(s, approved) && t == s.(worker := t.worker)
    ensures OnlyApproved(t, approved) && RanOnce(t, approved) && RecordedBeforeForgotten(t)
  {
    assert t.restores == s.restores && t.cluster == s.cluster && t.jobs == s.jobs && t.ran == s.ran;
  }

  lemma ClaimKeepsStanding(s: State, approved: string)
    requires Inv(s) && History(s) && Standing(s, approved) && '/' !in approved && s.worker.Claim?
    ensures Standing(Perform(s), approved)
  {
  }

  lemma FinishKeepsStanding(s: State, approved: string)
    requires WorkerOk(s) && Standing(s, approved) && s.worker.Finish?
    ensures Standing(Perform(s), approved)
  {
    var t := Perform(s);
    assert t.restores == s.restores && t.jobs == s.jobs && t.ran == s.ran && t.cluster.last == s.cluster.last;
    assert t.cluster.inProgress in {"", s.cluster.inProgress} && t.cluster.allow in {"", s.cluster.allow};
    assert OnlyApproved(t, approved) && RanOnce(t, approved) && RecordedBeforeForgotten(t);
  }

  lemma RecordKeepsStanding(s: State, approved: string)
    requires Inv(s) && History(s) && Standing(s, approved) && (s.worker.Record? || s.worker.DeleteVolumes?)
    ensures Standing(Perform(s), approved)
  {
  }

  lemma StatusWritten(s: State, t: State, approved: string)
    requires WellNamed(s) && WorkerOk(s) && RanIsHistory(s) && Standing(s, approved)
    requires s.worker.WriteStatus? && Unchanged(s, s.worker.name, s.worker.seen)
    requires t == s.(restores := s.restores[s.worker.name := s.worker.next], worker := Idle)
    ensures OnlyApproved(t, approved) && RanOnce(t, approved) && RecordedBeforeForgotten(t)
  {
    assert t.cluster == s.cluster && t.jobs == s.jobs && t.ran == s.ran;
    assert t.restores.Keys == s.restores.Keys;
    assert forall m | m in t.restores && m != s.worker.name :: t.restores[m] == s.restores[m];
  }

  lemma WriteStatusKeepsStanding(s: State, approved: string)
    requires WellNamed(s) && WorkerOk(s) && RanIsHistory(s) && Standing(s, approved) && s.worker.WriteStatus?
    ensures Standing(Perform(s), approved)
  {
    var t := Perform(s);
    if Unchanged(s, s.worker.name, s.worker.seen) {
      StatusWritten(s, t, approved);
    } else {
      SameButWorker(s, t, approved);
    }
  }

  lemma CreateJobKeepsStanding(s: State, approved: string)
    requires WorkerOk(s) && UidsDistinct(s) && Standing(s, approved) && s.worker.CreateJob?
    ensures Standing(Perform(s), approved)
  {
  }

  lemma StopJobKeepsStanding(s: State, approved: string)
    requires Inv(s) && History(s) && Standing(s, approved) && s.worker.StopJob?
    ensures Standing(Perform(s), approved)
  {
  }

  lemma AddFinalizerKeepsStanding(s: State, approved: string)
    requires StartedHaveFinalizer(s) && Standing(s, approved) && s.worker.AddFinalizer?
    ensures Standing(Perform(s), approved)
  {
    var t, n := Perform(s), s.worker.name;
    assert t.cluster == s.cluster && t.jobs == s.jobs && t.ran == s.ran && t.worker == Idle;
    if Unchanged(s, n, s.worker.seen) {
      assert t.restores == s.restores[n := s.restores[n].(finalizer := true)];
      assert forall m | m in t.restores && m != n :: m in s.restores && t.restores[m] == s.restores[m];
    } else {
      assert t.restores == s.restores;
    }
  }

  lemma RemoveFinalizerKeepsStanding(s: State, approved: string)
    requires Inv(s) && History(s) && Standing(s, approved) && s.worker.RemoveFinalizer?
    ensures Standing(Perform(s), approved)
  {
    var t := Perform(s);
    assert t.cluster == s.cluster && t.jobs == s.jobs && t.ran == s.ran && t.worker == Idle;
  }

  lemma CreateRestoreKeepsStanding(s: State, n: string, u: string, approved: string)
    requires Inv(s) && History(s) && Standing(s, approved) && Enabled(s, CreateRestore(n, u))
    ensures Standing(Next(s, CreateRestore(n, u)), approved)
  {
    var t := Next(s, CreateRestore(n, u));
    assert t.cluster == s.cluster && t.jobs == s.jobs && t.ran == s.ran && t.worker == s.worker;
  }

  lemma DeleteRestoreKeepsStanding(s: State, n: string, approved: string)
    requires StartedHaveFinalizer(s) && RanIsHistory(s) && Standing(s, approved) && Enabled(s, DeleteRestore(n))
    ensures Standing(Next(s, DeleteRestore(n)), approved)
  {
    var t := Next(s, DeleteRestore(n));
    assert t.cluster == s.cluster && t.jobs == s.jobs && t.ran == s.ran && t.worker == s.worker;
  }

  lemma JobsKeepStanding(s: State, e: Event, approved: string)
    requires Standing(s, approved) && Enabled(s, e)
    requires e.JobCompletes? || e.JobFails? || e.JobRemoved?
    ensures Standing(Next(s, e), approved)
  {
    var t := Next(s, e);
    assert t.restores == s.restores && t.cluster == s.cluster && t.ran == s.ran && t.worker == s.worker;
  }

  lemma OthersKeepStanding(s: State, e: Event, approved: string)
    requires Standing(s, approved) && Enabled(s, e)
    requires e.SetAllow? ==> e.value == approved
    requires !e.Start? && !e.Work? && !e.CreateRestore? && !e.DeleteRestore? && !e.JobCompletes? && !e.JobFails?
    requires !e.JobRemoved?
    ensures Standing(Next(s, e), approved)
  {
    var t := Next(s, e);
    assert t.restores == s.restores && t.ran == s.ran && t.jobs == s.jobs && t.cluster.last == s.cluster.last;
    assert t.cluster.inProgress == s.cluster.inProgress
           && (t.worker == s.worker || t.worker.Idle? || t.worker.DeleteVolumes?);
  }

  lemma WorkKeepsStanding(s: State, approved: string)
    requires Inv(s) && History(s) && Standing(s, approved) && '/' !in approved && !s.worker.Idle?
    ensures Standing(Perform(s), approved)
  {
    match s.worker
    case Claim(_, _, _) => ClaimKeepsStanding(s, approved);
    case Finish(_, _, _, _) => FinishKeepsStanding(s, approved);
    case WriteStatus(_, _, _) => WriteStatusKeepsStanding(s, approved);
    case CreateJob(_, _) => CreateJobKeepsStanding(s, approved);
    case StopJob(_, _, _) => StopJobKeepsStanding(s, approved);
    case RemoveFinalizer(_, _) => RemoveFinalizerKeepsStanding(s, approved);
    case AddFinalizer(_, _) => AddFinalizerKeepsStanding(s, approved);
    case _ => RecordKeepsStanding(s, approved);
  }

  lemma StepKeepsStanding(s: State, e: Event, approved: string)
    requires Inv(s) && History(s) && Standing(s, approved) && Enabled(s, e) && '/' !in approved
    requires e.SetAllow? ==> e.value == approved
    ensures Standing(Next(s, e), approved)
  {
    match e
    case Start(n) => StartKeepsStanding(s, n, approved);
    case Work => WorkKeepsStanding(s, approved);
    case CreateRestore(n, u) => CreateRestoreKeepsStanding(s, n, u, approved);
    case DeleteRestore(n) => DeleteRestoreKeepsStanding(s, n, approved);
    case JobCompletes(_) => JobsKeepStanding(s, e, approved);
    case JobFails(_) => JobsKeepStanding(s, e, approved);
    case JobRemoved(_) => JobsKeepStanding(s, e, approved);
    case _ => OthersKeepStanding(s, e, approved);
  }

  /** Users set allow-restore to nothing but the given name. */
  predicate AlwaysTheSame(es: seq<Event>, approved: string) {
    forall e | e in es :: e.SetAllow? ==> e.value == approved
  }

  lemma {:induction false} RunKeepsStanding(s: State, es: seq<Event>, t: State, approved: string)
    requires Inv(s) && History(s) && Standing(s, approved) && '/' !in approved
    requires Run(s, es, t) && AlwaysTheSame(es, approved)
    ensures Standing(t, approved)
    decreases |es|
  {
    if es != [] {
      StepKeepsInv(s, es[0]);
      StepKeepsHistory(s, es[0]);
      StepKeepsStanding(s, es[0], approved);
      RunKeepsStanding(Next(s, es[0]), es[1..], t, approved);
    }
  }

  /** However often a name-only approval is applied again, however often a Restore of that name is
      deleted and created again, and wherever the controller crashes (between the annotation patch
      and the lastRestore patch, too): at most one Restore ever creates a Job. */
  lemma StandingApprovalRunsOnce(s: State, es: seq<Event>, t: State, approved: string)
    requires Init(s) && s.cluster.allow in {"", approved} && '/' !in approved
    requires Run(s, es, t) && AlwaysTheSame(es, approved)
    ensures forall u, v | u in t.ran && v in t.ran :: u == v
  {
    InitInv(s);
    InitHistory(s);
    RunKeepsStanding(s, es, t, approved);
  }
}
