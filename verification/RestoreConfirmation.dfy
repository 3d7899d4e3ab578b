/** What confirms a Restore, and that nothing runs without it. */
module RestoreConfirmation {
  import opened RestoreModel
  import opened RestoreSafety

  // ---------- what an approval is ----------

  /** allow-restore names the Restore with its UID, or by its name alone while the Cluster has seen no
      other Restore through. */
  ghost predicate Approves(c: Cluster, n: string, uid: string) {
    c.allow == n + "/" + uid || (c.allow == n && (c.last.Never? || c.last.uid == uid))
  }

  lemma ConfirmedMeans(c: Cluster, n: string, uid: string)
    requires n != "" && '/' !in n
    ensures Confirmed(c, n, uid) <==> Approves(c, n, uid)
  {
    CutJoined(n, uid);
    if Confirmed(c, n, uid) {
      assert c.allow == n + "/" + CutSlash(c.allow).1 || c.allow == n;
    }
  }

  /** Whoever is unfinished and in the Cluster's restore-in-progress keeps it. */
  ghost predicate HeldByAnother(s: State, n: string) {
    var m := s.cluster.inProgress;
    m != "" && m != n && m in s.restores && !s.restores[m].phase.Succeeded? && !s.restores[m].phase.Failed?
  }

  /** In every run, a reconcile goes on to claim the Cluster if and only if the Restore has its finalizer, is
      unfinished, not being deleted, not underway and resolves, no unfinished Restore holds the Cluster, and
      the annotation approves it. */
  lemma ClaimDecides(s: State, es: seq<Event>, t: State, n: string)
    requires Init(s) && Run(s, es, t) && Enabled(t, Start(n))
    ensures var r := t.restores[n];
            Next(t, Start(n)).worker.Claim? <==>
              && r.finalizer && !r.deleting && r.phase !in {Succeeded, Failed} && !r.jobRecorded
              && r.uid in t.resolvable && t.cluster.inProgress != n && !HeldByAnother(t, n)
              && Approves(t.cluster, n, r.uid)
    ensures Next(t, Start(n)).worker.Claim? ==> Next(t, Start(n)).worker == Claim(n, t.restores[n], t.cluster)
  {
    InitInv(s);
    RunKeepsInv(s, es, t);
    assert WellNamed(t);
    ConfirmedMeans(t.cluster, n, t.restores[n].uid);
  }

  lemma {:induction false} RunKeepsInv(s: State, es: seq<Event>, t: State)
    requires Inv(s) && Run(s, es, t)
    ensures Inv(t)
    decreases |es|
  {
    if es != [] {
      StepKeepsInv(s, es[0]);
      RunKeepsInv(Next(s, es[0]), es[1..], t);
    }
  }

  // ---------- nothing runs without one ----------

  /** Whoever claims the Cluster, holds it, records its Job or has run is in approved. */
  ghost predicate StartedApproved(s: State, approved: iset<string>) {
    && (forall n | n in s.restores && (s.restores[n].jobRecorded || s.cluster.inProgress == n) ::
          s.restores[n].uid in approved)
    && (forall u | u in s.ran :: u in approved)
    && (s.worker.Claim? || s.worker.CreateJob? || RecordsJob(s.worker) ==> s.worker.seen.uid in approved)
  }

  ghost predicate ApprovedNow(s: State, u: string) {
    exists n :: n in s.restores && s.restores[n].uid == u && Approves(s.cluster, n, u)
  }

  /** At some moment of the run, the annotation approved the Restore with this UID. */
  ghost predicate EverApproved(s: State, es: seq<Event>, u: string)
    decreases |es|
  {
    ApprovedNow(s, u) || (es != [] && Enabled(s, es[0]) && EverApproved(Next(s, es[0]), es[1..], u))
  }

  lemma StartKeepsApproved(s: State, n: string, approved: iset<string>)
    requires Inv(s) && StartedApproved(s, approved) && Enabled(s, Start(n))
    requires forall u :: ApprovedNow(s, u) ==> u in approved
    ensures StartedApproved(Next(s, Start(n)), approved)
  {
    ConfirmedMeans(s.cluster, n, s.restores[n].uid);
    assert Confirmed(s.cluster, n, s.restores[n].uid) ==> ApprovedNow(s, s.restores[n].uid);
  }

  lemma StatusKeepsApproved(s: State, approved: iset<string>)
    requires WorkerOk(s) && StartedApproved(s, approved) && s.worker.WriteStatus?
    ensures StartedApproved(Perform(s), approved)
  {
    var t := Perform(s);
    assert t.cluster == s.cluster && t.ran == s.ran && t.worker == Idle;
    assert forall m | m in t.restores && m != s.worker.name :: m in s.restores && t.restores[m] == s.restores[m];
  }

  lemma FinalizersKeepApproved(s: State, approved: iset<string>)
    requires StartedApproved(s, approved) && (s.worker.AddFinalizer? || s.worker.RemoveFinalizer?)
    ensures StartedApproved(Perform(s), approved)
  {
    var t := Perform(s);
    assert t.cluster == s.cluster && t.ran == s.ran && t.worker == Idle;
    assert forall m | m in t.restores ::
        m in s.restores && t.restores[m].(finalizer := s.restores[m].finalizer) == s.restores[m];
  }

  lemma StartsKeepApproved(s: State, approved: iset<string>)
    requires WorkerOk(s) && StartedApproved(s, approved) && (s.worker.Claim? || s.worker.CreateJob?)
    ensures StartedApproved(Perform(s), approved)
  {
    assert Perform(s).restores == s.restores;
  }

  lemma EndsKeepApproved(s: State, approved: iset<string>)
    requires WellNamed(s) && WorkerOk(s) && StartedApproved(s, approved)
    requires s.worker.Finish? || s.worker.Record? || s.worker.DeleteVolumes? || s.worker.StopJob?
    ensures StartedApproved(Perform(s), approved)
  {
    var t := Perform(s);
    assert t.restores == s.restores && t.ran == s.ran && t.cluster.inProgress in {"", s.cluster.inProgress};
  }

  lemma WorkKeepsApproved(s: State, approved: iset<string>)
    requires Inv(s) && StartedApproved(s, approved) && !s.worker.Idle?
    ensures StartedApproved(Perform(s), approved)
  {
    if s.worker.WriteStatus? {
      StatusKeepsApproved(s, approved);
    } else if s.worker.AddFinalizer? || s.worker.RemoveFinalizer? {
      FinalizersKeepApproved(s, approved);
    } else if s.worker.Claim? || s.worker.CreateJob? {
      StartsKeepApproved(s, approved);
    } else {
      EndsKeepApproved(s, approved);
    }
  }

  lemma StepKeepsApproved(s: State, e: Event, approved: iset<string>)
    requires Inv(s) && StartedApproved(s, approved) && Enabled(s, e)
    requires forall u :: ApprovedNow(s, u) ==> u in approved
    ensures StartedApproved(Next(s, e), approved)
  {
    if e.Start? {
      StartKeepsApproved(s, e.name, approved);
    } else if e.Work? {
      WorkKeepsApproved(s, approved);
    }
  }

  lemma {:induction false} RunKeepsApproved(s: State, es: seq<Event>, t: State, approved: iset<string>)
    requires Inv(s) && StartedApproved(s, approved) && Run(s, es, t)
    ensures forall u | u in t.ran :: u in approved || EverApproved(s, es, u)
    decreases |es|
  {
    if es != [] {
      var more := approved + iset u | ApprovedNow(s, u);
      StepKeepsInv(s, es[0]);
      StepKeepsApproved(s, es[0], more);
      RunKeepsApproved(Next(s, es[0]), es[1..], t, more);
    }
  }

  /** In every run: a Restore whose Job was ever created was approved at some moment, with its UID or, while
      the Cluster had seen no other Restore through, by its name. */
  lemma NothingRunsUnapproved(s: State, es: seq<Event>, t: State)
    requires Init(s) && Run(s, es, t)
    ensures forall u | u in t.ran :: EverApproved(s, es, u)
  {
    InitInv(s);
    RunKeepsApproved(s, es, t, iset{});
  }
}
