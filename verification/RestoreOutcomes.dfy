/** What the restore controller reports is true, and what it deletes is not needed any more. */
module RestoreOutcomes {
  import opened RestoreModel
  import opened RestoreSafety
  import opened RestoreHistory

  predicate TruthfulWorker(s: State) {
    match s.worker
    case WriteStatus(n, seen, next) => next.phase.Succeeded? ==> seen.uid in s.won
    case Finish(n, seen, o, after) => o.RestoreSucceeded? || after.MarkSucceeded? ==> seen.uid in s.won
    case Record(n, seen, o, after) => o.RestoreSucceeded? || after.MarkSucceeded? ==> seen.uid in s.won
    case DeleteVolumes(n, seen, todo) => 0 !in todo
    case _ => true
  }

  /** Whoever is reported to have succeeded had its Job completed. */
  ghost predicate Truthful(s: State) {
    && (forall n | n in s.restores :: s.restores[n].phase == Succeeded ==> s.restores[n].uid in s.won)
    && (s.cluster.last.LastRestore? && s.cluster.last.outcome == RestoreSucceeded ==> s.cluster.last.uid in s.won)
    && TruthfulWorker(s)
  }

  lemma StartIsTruthful(s: State, n: string)
    requires Inv(s) && History(s) && Truthful(s) && Enabled(s, Start(n))
    ensures Truthful(Next(s, Start(n)))
  {
    StartKeepsHistory(s, n);
    var t := Next(s, Start(n));
    assert t.restores == s.restores && t.cluster == s.cluster && t.won == s.won && t.volumes == s.volumes;
  }

  lemma StatusIsTruthful(s: State)
    requires WorkerOk(s) && Truthful(s) && s.worker.WriteStatus?
    ensures Truthful(Perform(s))
  {
    var t := Perform(s);
    assert t.cluster == s.cluster && t.won == s.won && t.worker == Idle;
    assert forall m | m in t.restores && m != s.worker.name :: m in s.restores && t.restores[m] == s.restores[m];
  }

  lemma FinalizersAreTruthful(s: State)
    requires Truthful(s) && (s.worker.AddFinalizer? || s.worker.RemoveFinalizer?)
    ensures Truthful(Perform(s))
  {
    var t := Perform(s);
    assert t.won == s.won && t.cluster == s.cluster && t.worker == Idle;
    assert forall m | m in t.restores ::
        m in s.restores && t.restores[m].(finalizer := s.restores[m].finalizer) == s.restores[m];
  }

  lemma EndIsTruthful(s: State)
    requires Truthful(s) && (s.worker.Finish? || s.worker.Record?)
    ensures Truthful(Perform(s))
  {
    var t := Perform(s);
    assert t.won == s.won && t.restores == s.restores;
  }

  lemma WorkIsTruthful(s: State)
    requires Truthful(s) && !s.worker.Idle? && !s.worker.WriteStatus?
    ensures Truthful(Perform(s))
  {
    if s.worker.AddFinalizer? || s.worker.RemoveFinalizer? {
      FinalizersAreTruthful(s);
    } else if s.worker.Finish? || s.worker.Record? {
      EndIsTruthful(s);
    } else {
      var t := Perform(s);
      assert t.won == s.won && t.restores == s.restores && t.cluster.last == s.cluster.last;
    }
  }

  lemma OtherIsTruthful(s: State, e: Event)
    requires Inv(s) && Truthful(s) && Enabled(s, e) && !e.Start? && !e.Work?
    ensures Truthful(Next(s, e))
  {
    var t := Next(s, e);
    assert s.won <= t.won && t.cluster.last == s.cluster.last;
    assert t.worker == s.worker || t.worker == Idle || (t.worker.DeleteVolumes? && t.worker.todo <= s.worker.todo);
  }

  lemma {:induction false} RunIsTruthful(s: State, es: seq<Event>, t: State)
    requires Inv(s) && History(s) && Truthful(s) && Run(s, es, t)
    ensures Inv(t) && History(t) && Truthful(t)
    decreases |es|
  {
    if es != [] {
      StepKeepsInv(s, es[0]);
      StepKeepsHistory(s, es[0]);
      if es[0].Start? {
        StartIsTruthful(s, es[0].name);
      } else if !es[0].Work? {
        OtherIsTruthful(s, es[0]);
      } else if s.worker.WriteStatus? {
        StatusIsTruthful(s);
      } else {
        WorkIsTruthful(s);
      }
      RunIsTruthful(Next(s, es[0]), es[1..], t);
    }
  }

  /** In every run: a Restore in phase Succeeded, and one that status.lastRestore says succeeded, had its own
      Job completed. */
  lemma SuccessIsTrue(s: State, es: seq<Event>, t: State)
    requires Init(s) && Run(s, es, t)
    ensures forall n | n in t.restores :: t.restores[n].phase == Succeeded ==> t.restores[n].uid in t.won
    ensures t.cluster.last.LastRestore? && t.cluster.last.outcome == RestoreSucceeded ==> t.cluster.last.uid in t.won
  {
    InitInv(s);
    InitHistory(s);
    RunIsTruthful(s, es, t);
  }

  /** In every run, the controller deletes a data volume only for a Restore whose own Job completed, and never
      the primary's. */
  lemma WhoDeletesVolumes(s: State, es: seq<Event>, t: State, e: Event)
    requires Init(s) && Run(s, es, t) && Enabled(t, e) && e.DeleteVolume?
    ensures e.ordinal != 0 && t.worker.seen.uid in t.won
  {
    InitInv(s);
    InitHistory(s);
    RunIsTruthful(s, es, t);
  }

  /** Once its Job is complete, a Restore that is reconciled starts to delete all standbys' volumes that are not
      being deleted yet; when there is none any more, it goes on to its success. */
  lemma CompletedJobDecides(t: State, n: string)
    requires Enabled(t, Start(n)) && n in t.jobs && t.jobs[n].owner == t.restores[n].uid
    requires t.jobs[n].state == Complete && (t.restores[n].deleting ==> !t.jobs[n].deleting)
    requires var r := t.restores[n]; r.finalizer && r.jobRecorded && r.phase != Succeeded && r.phase != Failed
    ensures var w := Next(t, Start(n)).worker;
            if forall i <- t.volumes :: i == 0 then w == Finish(n, t.restores[n], RestoreSucceeded, MarkSucceeded)
            else w.DeleteVolumes? && forall i :: i in w.todo <==> i in t.volumes && i != 0 && !t.volumes[i]
  {
    assert Standbys(t) == {} <==> forall i <- t.volumes :: i == 0 by {
      if Standbys(t) == {} {
        forall i <- t.volumes ensures i == 0 {
          assert i !in Standbys(t);
        }
      }
    }
  }
}
