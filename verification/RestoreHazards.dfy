/** What each hazard costs, and runs from the start that meet them. The user guide says that a
    second Restore waits for one being deleted until its Job has stopped, and that the Cluster never
    starts while a Job of the Restore exists; these runs are where the code does otherwise. */
module RestoreHazards {
  import opened Option
  import opened RestoreModel
  import opened RestoreSafety
  import opened RestoreRuns

  // ---------- runs that go on ----------

  /** Which events a run is made of: any; none that deletes a Restore; none in which a target appears; none
      that a user brings about. */
  datatype Kind = AnyEvent | NoDeletion | NoAppearance | Unaided

  predicate Fits(k: Kind, e: Event) {
    match k
    case AnyEvent => true
    case NoDeletion => !e.DeleteRestore?
    case NoAppearance => !e.TargetAppears?
    case Unaided => !ByUser(e)
  }

  predicate ByUser(e: Event) {
    || e.CreateRestore? || e.DeleteRestore? || e.SetAllow? || e.ClearInterrupted? || e.TargetAppears?
    || e.TargetVanishes? || e.MarkVolume? || e.DeleteSts?
  }

  datatype From = From(start: State, kind: Kind)

  /** A run of that kind leads from there to t. */
  ghost predicate Leads(f: From, t: State) {
    exists es :: Run(f.start, es, t) && forall e <- es :: Fits(f.kind, e)
  }

  ghost predicate Reachable(t: State) {
    exists s :: Init(s) && Leads(From(s, AnyEvent), t)
  }

  lemma Stays(s: State, k: Kind)
    ensures Leads(From(s, k), s)
  {
    assert Run(s, [], s);
  }

  lemma {:induction false} RunExtends(s: State, es: seq<Event>, t: State, e: Event)
    requires Run(s, es, t) && Enabled(t, e)
    ensures Run(s, es + [e], Next(t, e))
    decreases |es|
  {
    if es == [] {
      assert Run(Next(t, e), [], Next(t, e));
      assert ([e])[1..] == [];
    } else {
      RunExtends(Next(s, es[0]), es[1..], t, e);
      assert (es + [e])[1..] == es[1..] + [e];
    }
  }

  lemma Extend(f: From, t: State, e: Event) returns (u: State)
    requires Leads(f, t) && Enabled(t, e) && Fits(f.kind, e)
    ensures u == Next(t, e) && Leads(f, u)
  {
    var es :| Run(f.start, es, t) && forall e <- es :: Fits(f.kind, e);
    RunExtends(f.start, es, t, e);
    assert forall d <- es + [e] :: Fits(f.kind, d);
    u := Next(t, e);
  }

  lemma Reconcile(f: From, t: State, n: string) returns (u: State)
    requires Leads(f, t) && t.worker.Idle? && n in t.restores
    ensures u == t.(worker := Decide(t, n)) && Leads(f, u)
  {
    u := Extend(f, t, Start(n));
  }

  lemma Write(f: From, t: State) returns (u: State)
    requires Leads(f, t) && !t.worker.Idle? && !t.worker.DeleteVolumes?
    ensures u == Perform(t) && Leads(f, u)
  {
    u := Extend(f, t, Work);
  }

  lemma {:induction false} RunInv(s: State, es: seq<Event>, t: State)
    requires Inv(s) && Run(s, es, t)
    ensures Inv(t)
    decreases |es|
  {
    if es != [] {
      StepKeepsInv(s, es[0]);
      RunInv(Next(s, es[0]), es[1..], t);
    }
  }

  lemma LeadsInv(f: From, t: State)
    requires Inv(f.start) && Leads(f, t)
    ensures Inv(t)
  {
    var es :| Run(f.start, es, t) && forall e <- es :: Fits(f.kind, e);
    RunInv(f.start, es, t);
  }

  lemma ReachableInv(t: State)
    requires Reachable(t)
    ensures Inv(t)
  {
    var s :| Init(s) && Leads(From(s, AnyEvent), t);
    InitInv(s);
    LeadsInv(From(s, AnyEvent), t);
  }

  // ---------- PostgreSQL beside a live Job ----------

  /** The Job of the Restore m has a pod, and so has PostgreSQL. */
  ghost predicate PostgresBesideJob(t: State, m: string) {
    m in t.jobPods && t.pgPods != {}
  }

  lemma PostgresStarts(f: From, s: State, m: string) returns (t: State)
    requires Leads(f, s) && !Paused(s.cluster) && Live(s, m)
    ensures Leads(f, t) && PostgresBesideJob(t, m)
  {
    t := PodRuns(f, s, m);
    t := Extend(f, t, ClusterReconcile(1));
    t := Extend(f, t, StartPod(0));
    assert 0 in t.pgPods;
  }

  /** A live Job on a Cluster that is not paused: PostgreSQL may start beside it. */
  lemma UnpausedBesideLiveJob(s: State, m: string)
    requires !Paused(s.cluster) && Live(s, m)
    ensures exists t :: Leads(From(s, AnyEvent), t) && PostgresBesideJob(t, m)
  {
    Stays(s, AnyEvent);
    var t := PostgresStarts(From(s, AnyEvent), s, m);
  }

  /** A succeeded Restore that runs finishOnCluster again (it crashed before recording its end)
      also clears the mark that guards another Restore's Job. */
  lemma SecondSuccessStartsPostgres(s: State)
    requires Enabled(s, Work) && Hazard(s, Work) && s.worker.Finish?
    ensures SomeLive(s)
    ensures forall m | m in s.jobs && Live(s, m) ::
              exists t :: Leads(From(s, AnyEvent), t) && PostgresBesideJob(t, m)
  {
    forall m | m in s.jobs && Live(s, m)
      ensures exists t :: Leads(From(s, AnyEvent), t) && PostgresBesideJob(t, m) {
      Stays(s, AnyEvent);
      var t := SecondSuccess(From(s, AnyEvent), s, m);
    }
  }

  lemma SecondSuccess(f: From, s: State, m: string) returns (t: State)
    requires Leads(f, s) && Enabled(s, Work) && Hazard(s, Work) && s.worker.Finish? && Live(s, m)
    ensures Leads(f, t) && PostgresBesideJob(t, m)
  {
    t := Extend(f, s, Work);
    t := PostgresStarts(f, t, m);
  }

  // ---------- the stages of a restore ----------

  function Fresh(u: string): Restore {
    Restore(u, NoPhase, NoReason, false, true, false)
  }

  lemma Created(f: From, s: State, n: string, u: string) returns (t: State)
    requires !f.kind.Unaided?
    requires Leads(f, s) && s.worker.Idle? && n != "" && '/' !in n && n !in s.restores && u !in s.used
    ensures Leads(f, t) && t == s.(restores := s.restores[n := Fresh(u)], used := s.used + {u})
  {
    t := Extend(f, s, CreateRestore(n, u));
    t := Reconcile(f, t, n);
    t := Write(f, t);
  }

  lemma Claimed(f: From, s: State, n: string, u: string) returns (t: State)
    requires Leads(f, s) && s.worker.Idle? && n != "" && n in s.restores && s.restores[n] == Fresh(u)
    requires u in s.resolvable && s.cluster.inProgress == "" && Confirmed(s.cluster, n, u)
    ensures Leads(f, t)
    ensures t == s.(restores := s.restores[n := Fresh(u).(phase := Running, reason := StoppingCluster)],
                    cluster := s.cluster.(inProgress := n))
  {
    t := Reconcile(f, s, n);
    t := Write(f, t);
    t := Write(f, t);
  }

  predicate ReadyToRecord(s: State, n: string) {
    && s.worker.Idle? && ClusterStopped(s) && n in s.restores && s.cluster.inProgress == n
    && n !in s.jobs && 0 in s.volumes
    && var r := s.restores[n];
       !r.deleting && r.finalizer && Unfinished(r) && !r.jobRecorded && r.uid in s.resolvable
  }

  function Recorded(r: Restore): Restore {
    r.(phase := Running, reason := CreatingJob, jobRecorded := true)
  }

  lemma JobNamed(f: From, s: State, n: string) returns (t: State)
    requires Leads(f, s) && ReadyToRecord(s, n)
    ensures Leads(f, t) && t == s.(restores := s.restores[n := Recorded(s.restores[n])])
  {
    t := Reconcile(f, s, n);
    t := Write(f, t);
  }

  lemma JobRuns(f: From, s: State, n: string) returns (t: State)
    requires Leads(f, s) && s.worker.Idle? && n in s.restores && n !in s.jobs
    requires var r := s.restores[n]; !r.deleting && r.finalizer && r == Recorded(r) && r.uid in s.resolvable
    ensures Leads(f, t)
    ensures var r := s.restores[n];
            t == s.(restores := s.restores[n := r.(reason := Restoring)],
                    jobs := s.jobs[n := Job(r.uid, Active, false)],
                    ran := s.ran + {r.uid}, jobPods := s.jobPods + {n})
  {
    t := Reconcile(f, s, n);
    t := Write(f, t);
    t := Write(f, t);
    t := Extend(f, t, JobPodStarts(n));
  }

  /** The finalizer of a Restore whose Job's pod runs: it marks the Cluster, records the end and
      deletes the Job; the pod is still there. */
  lemma FinalizedWithPod(f: From, s: State, n: string) returns (t: State)
    requires Leads(f, s) && s.worker.Idle? && n in s.restores && n in s.jobPods && s.cluster.inProgress == n
    requires s.restores[n].deleting && s.restores[n].finalizer && Unfinished(s.restores[n])
    requires n in s.jobs && s.jobs[n] == Job(s.restores[n].uid, Active, false)
    ensures Leads(f, t)
    ensures t == s.(cluster := FinishAnnotations(s.cluster, n, Interrupted)
                                .(last := LastRestore(n, s.restores[n].uid, Interrupted)),
                    jobs := s.jobs[n := s.jobs[n].(deleting := true)])
  {
    t := Reconcile(f, s, n);
    t := Write(f, t);
    t := Write(f, t);
    t := Write(f, t);
  }

  // ---------- what a claim beside a live Job costs ----------

  /** Two Jobs have a pod, those of the Restores n and m. */
  ghost predicate TwoJobsWrite(t: State, n: string, m: string) {
    n != m && n in t.jobPods && m in t.jobPods
  }

  /** Holds the Cluster and has not recorded its Job. */
  predicate Preparing(s: State, n: string) {
    && n != "" && n in s.restores && s.cluster.inProgress == n
    && var r := s.restores[n]; !r.deleting && r.finalizer && Unfinished(r) && !r.jobRecorded
  }

  /** The target of a Restore resolves, and no Job of an earlier Restore of that name is left. */
  lemma Readied(f: From, s: State, n: string) returns (t: State)
    requires !f.kind.Unaided?
    requires Inv(f.start) && Leads(f, s) && Preparing(s, n)
    requires f.kind.NoAppearance? ==> s.restores[n].uid in s.resolvable
    ensures Leads(f, t) && n !in t.jobs && s.restores[n].uid in t.resolvable
    ensures t == s.(jobs := s.jobs - {n}, resolvable := s.resolvable + {s.restores[n].uid})
  {
    LeadsInv(f, s);
    t := s;
    if s.restores[n].uid !in s.resolvable {
      t := Extend(f, s, TargetAppears(s.restores[n].uid));
    }
    assert t.resolvable == s.resolvable + {s.restores[n].uid};
    if n in s.jobs {
      assert !ActiveJob(s, n);
      t := Extend(f, t, JobRemoved(n));
    }
    assert t.jobs == s.jobs - {n};
  }

  lemma SecondJobRuns(f: From, s: State, n: string, m: string) returns (t: State)
    requires !f.kind.Unaided?
    requires Inv(f.start) && Leads(f, s) && s.worker.Idle? && PgOff(s) && Preparing(s, n) && 0 in s.volumes
    requires m in s.jobPods && m != n && (f.kind.NoAppearance? ==> s.restores[n].uid in s.resolvable)
    ensures Leads(f, t) && TwoJobsWrite(t, n, m)
  {
    t := Readied(f, s, n);
    t := Extend(f, t, ClusterReconcile(1));
    t := Extend(f, t, RefreshStsStatus);
    t := JobNamed(f, t, n);
    t := JobRuns(f, t, n);
  }

  /** A claim that gives the exclusion up, of a Restore that is not being deleted on a Cluster that has
      its primary's volume: both Jobs end up writing that. */
  lemma HazardousClaimRunsTwoJobs(s: State)
    requires Reachable(s) && Excl(s) && Enabled(s, Work) && Hazard(s, Work) && s.worker.Claim?
    requires Unchanged(s, s.worker.name, s.worker.seen) && !s.worker.seen.deleting && 0 in s.volumes
    ensures SomeLive(s)
    ensures forall m | m in s.jobs && Live(s, m) ::
              exists t :: Leads(From(s, AnyEvent), t) && TwoJobsWrite(t, s.worker.name, m)
  {
    ReachableInv(s);
    Stays(s, AnyEvent);
    forall m | m in s.jobs && Live(s, m)
      ensures exists t :: Leads(From(s, AnyEvent), t) && TwoJobsWrite(t, s.worker.name, m) {
      var t := ClaimedBeside(From(s, AnyEvent), s, m);
      t := SecondJobRuns(From(s, AnyEvent), t, s.worker.name, m);
    }
  }

  /** The Job's pod runs. */
  lemma PodRuns(f: From, s: State, m: string) returns (t: State)
    requires Leads(f, s) && m in s.jobs && Live(s, m)
    ensures Leads(f, t) && t == s.(jobPods := s.jobPods + {m})
  {
    t := s;
    if m !in s.jobPods {
      t := Extend(f, s, JobPodStarts(m));
    }
    assert m in s.jobPods ==> s.jobPods + {m} == s.jobPods;
  }

  lemma ClaimedBeside(f: From, s: State, m: string) returns (t: State)
    requires Inv(f.start) && Leads(f, s) && Excl(s) && Enabled(s, Work) && Hazard(s, Work) && s.worker.Claim?
    requires Unchanged(s, s.worker.name, s.worker.seen) && !s.worker.seen.deleting && m in s.jobs && Live(s, m)
    ensures Leads(f, t) && t.worker.Idle? && PgOff(t) && Preparing(t, s.worker.name) && t.volumes == s.volumes
    ensures m in t.jobPods && m != s.worker.name
  {
    LeadsInv(f, s);
    assert Guarded(s, m) && JobBelongs(s, m);
    t := PodRuns(f, s, m);
    t := Write(f, t);
    t := Write(f, t);
  }

  // ---------- what a late Job costs ----------

  /** A Job created after its Restore gave the Cluster back runs beside PostgreSQL. */
  lemma LateJobRunsBesidePostgres(s: State)
    requires Reachable(s) && s.worker.CreateJob? && s.worker.name !in s.jobs && !Paused(s.cluster)
    ensures Hazard(s, Work)
    ensures exists t :: Leads(From(s, AnyEvent), t) && PostgresBesideJob(t, s.worker.name)
  {
    ReachableInv(s);
    Stays(s, AnyEvent);
    var t := LateJobMeetsPostgres(From(s, AnyEvent), s);
  }

  lemma LateJobMeetsPostgres(f: From, s: State) returns (t: State)
    requires Leads(f, s) && s.worker.CreateJob? && s.worker.name !in s.jobs && !Paused(s.cluster)
    ensures Leads(f, t) && PostgresBesideJob(t, s.worker.name)
  {
    t := Extend(f, s, Work);
    assert Live(t, s.worker.name);
    t := PostgresStarts(f, t, s.worker.name);
  }

  /** The Job is created, the controller crashes, and the Job's pod starts. */
  lemma LateJobStarts(f: From, s: State) returns (t: State)
    requires Leads(f, s) && s.worker.CreateJob? && s.worker.name !in s.jobs
    ensures Leads(f, t)
    ensures var n, u := s.worker.name, s.worker.seen.uid;
            t == s.(worker := Idle, jobs := s.jobs[n := Job(u, Active, false)], ran := s.ran + {u},
                    jobPods := s.jobPods + {n})
  {
    t := Extend(f, s, Work);
    t := Extend(f, t, Crash);
    t := Extend(f, t, JobPodStarts(s.worker.name));
  }

  /** It runs beside the Job of another Restore, if there is one. */
  lemma LateJobRunsBesideJob(s: State, m: string)
    requires Reachable(s) && s.worker.CreateJob? && s.worker.name !in s.jobs && m in s.jobs && Live(s, m)
    ensures exists t :: Leads(From(s, AnyEvent), t) && TwoJobsWrite(t, s.worker.name, m)
  {
    Stays(s, AnyEvent);
    var t := PodRuns(From(s, AnyEvent), s, m);
    t := LateJobStarts(From(s, AnyEvent), t);
  }

  lemma {:induction false} PodsStopped(f: From, s: State) returns (t: State)
    requires Leads(f, s)
    ensures Leads(f, t) && t == s.(pgPods := {})
    decreases |s.pgPods|
  {
    if s.pgPods == {} {
      t := s;
    } else {
      var i :| i in s.pgPods;
      t := Extend(f, s, StopPod(i));
      t := PodsStopped(f, t);
    }
  }

  /** It runs beside the Job of the Restore that has claimed the Cluster since. */
  lemma LateJobRunsBesideHolder(s: State, m: string)
    requires Reachable(s) && s.worker.CreateJob? && s.worker.name !in s.jobs && m != s.worker.name
    requires Preparing(s, m) && 0 in s.volumes
    ensures Hazard(s, Work)
    ensures exists t :: Leads(From(s, AnyEvent), t) && TwoJobsWrite(t, m, s.worker.name)
  {
    ReachableInv(s);
    Stays(s, AnyEvent);
    var t := LateJobMeetsHolder(From(s, AnyEvent), s, m);
  }

  lemma LateJobMeetsHolder(f: From, s: State, m: string) returns (t: State)
    requires !f.kind.Unaided?
    requires Inv(f.start) && Leads(f, s) && s.worker.CreateJob? && s.worker.name !in s.jobs && m != s.worker.name
    requires Preparing(s, m) && 0 in s.volumes && (f.kind.NoAppearance? ==> s.restores[m].uid in s.resolvable)
    ensures Leads(f, t) && TwoJobsWrite(t, m, s.worker.name)
  {
    t := LateJobStarts(f, s);
    t := Extend(f, t, ClusterReconcile(1));
    t := PodsStopped(f, t);
    t := SecondJobRuns(f, t, m, s.worker.name);
  }

  /** It runs beside the Job of the Restore that has claimed the Cluster since and recorded its Job. */
  lemma LateJobRunsBesideRecorded(s: State, m: string)
    requires Reachable(s) && s.worker.CreateJob? && s.worker.name !in s.jobs && m != s.worker.name && m !in s.jobs
    requires m in s.restores && s.cluster.inProgress == m
    requires var r := s.restores[m]; !r.deleting && r.finalizer && r == Recorded(r)
    ensures Hazard(s, Work)
    ensures exists t :: Leads(From(s, AnyEvent), t) && TwoJobsWrite(t, m, s.worker.name)
  {
    ReachableInv(s);
    Stays(s, AnyEvent);
    var f := From(s, AnyEvent);
    var t := LateJobStarts(f, s);
    t := Extend(f, t, TargetAppears(s.restores[m].uid));
    t := JobRuns(f, t, m);
  }

  lemma {:induction false} Longer(names: set<string>) returns (m: string)
    ensures '/' !in m && m != "" && forall n <- names :: |n| < |m|
  {
    if names == {} {
      m := "m";
    } else {
      var n :| n in names;
      m := Longer(names - {n});
      if |m| <= |n| {
        m := seq(|n| + 1, i => 'm');
      }
    }
  }

  /** On a Cluster that nobody holds, be it paused by restore-interrupted or not, a new Restore can claim
      it: two Jobs. */
  lemma LateJobRunsBesideNewcomer(s: State)
    requires Reachable(s) && s.worker.CreateJob? && s.worker.name !in s.jobs
    requires s.cluster.inProgress == "" && 0 in s.volumes
    ensures exists t, m :: Leads(From(s, AnyEvent), t) && m !in s.restores && TwoJobsWrite(t, m, s.worker.name)
  {
    ReachableInv(s);
    Stays(s, AnyEvent);
    var f := From(s, AnyEvent);
    var m := Longer(s.restores.Keys + {s.worker.name});
    var v := Longer(s.used);
    var t := LateJobStarts(f, s);
    t := NewcomerClaims(f, t, m, v);
    t := Extend(f, t, ClusterReconcile(1));
    t := PodsStopped(f, t);
    t := SecondJobRuns(f, t, m, s.worker.name);
  }

  lemma NewcomerClaims(f: From, s: State, m: string, v: string) returns (t: State)
    requires f.kind.AnyEvent? && Leads(f, s) && s.worker.Idle? && s.cluster.inProgress == ""
    requires m != "" && '/' !in m && m !in s.restores && v !in s.used
    ensures Leads(f, t) && t.worker.Idle? && Preparing(t, m) && t.jobPods == s.jobPods && t.volumes == s.volumes
  {
    t := Created(f, s, m, v);
    t := Extend(f, t, SetAllow(m + "/" + v));
    t := Extend(f, t, TargetAppears(v));
    CutJoined(m, v);
    t := Claimed(f, t, m, v);
  }

  // ---------- the hazards are met ----------

  /** A Cluster with its primary's volume and a name-only confirmation for n; no pod runs. */
  ghost function Confirming(n: string, resolvable: set<string>): State {
    State(map[], Cluster("", "", n, Never), None, {}, map[0 := false], map[], {}, resolvable, Idle, {}, {}, {})
  }

  lemma FirstClaims(f: From, n: string, u: string, resolvable: set<string>) returns (t: State)
    requires n != "" && '/' !in n && u in resolvable && f.start == Confirming(n, resolvable)
    requires !f.kind.Unaided?
    ensures Leads(f, t) && Init(f.start) && Inv(f.start)
    ensures t == Confirming(n, resolvable)
                 .(restores := map[n := Fresh(u).(phase := Running, reason := StoppingCluster)],
                   cluster := Cluster(n, "", n, Never), used := {u})
  {
    InitInv(f.start);
    Stays(f.start, f.kind);
    t := Created(f, f.start, n, u);
    t := Claimed(f, t, n, u);
  }

  /** A target that vanishes while the Job is about to be created and comes back after the release
      but before the failure is recorded: the Job then runs beside PostgreSQL, nobody having
      deleted anything. */
  lemma TargetFlapRunsJobBesidePostgres(n: string, u: string)
    requires n != "" && '/' !in n
    ensures exists s, t :: Init(s) && Leads(From(s, NoDeletion), t) && PostgresBesideJob(t, n)
  {
    var f := From(Confirming(n, {u}), NoDeletion);
    var t := FirstClaims(f, n, u, {u});
    t := JobNamed(f, t, n);
    t := Extend(f, t, TargetVanishes(u));
    t := ReleasedThenCrashed(f, t, n);
    t := Extend(f, t, TargetAppears(u));
    t := Reconcile(f, t, n);
    t := LateJobMeetsPostgres(f, t);
  }

  /** The same with a second Restore m that claims the Cluster in between: two Jobs, nobody having
      deleted anything. */
  lemma TargetFlapRunsTwoJobs(n: string, u: string, m: string, v: string)
    requires n != "" && '/' !in n && m != "" && '/' !in m && n != m && u != v
    ensures exists s, t :: Init(s) && Leads(From(s, NoDeletion), t) && TwoJobsWrite(t, m, n)
  {
    var f := From(Confirming(n, {u, v}), NoDeletion);
    var t := FirstClaims(f, n, u, {u, v});
    t := JobNamed(f, t, n);
    t := Extend(f, t, TargetVanishes(u));
    t := ReleasedThenCrashed(f, t, n);
    t := Created(f, t, m, v);
    t := Extend(f, t, SetAllow(m + "/" + v));
    CutJoined(m, v);
    t := Claimed(f, t, m, v);
    t := Extend(f, t, TargetAppears(u));
    t := Reconcile(f, t, n);
    t := LateJobMeetsHolder(f, t, m);
  }

  lemma ReleasedThenCrashed(f: From, s: State, n: string) returns (t: State)
    requires Leads(f, s) && s.worker.Idle? && n in s.restores && n !in s.jobs
    requires var r := s.restores[n]; !r.deleting && r.finalizer && r == Recorded(r) && r.uid !in s.resolvable
    ensures Leads(f, t) && t == s.(cluster := FinishAnnotations(s.cluster, n, Released))
  {
    t := Reconcile(f, s, n);
    t := Write(f, t);
    t := Extend(f, t, Crash);
  }

  lemma DeletedWhileRunning(f: From, n: string, u: string, v: string) returns (t: State)
    requires n != "" && '/' !in n && u != v && f == From(Confirming(n, {u, v}), NoAppearance)
    ensures Leads(f, t) && Init(f.start) && Inv(f.start)
    ensures t.worker.Idle? && PgOff(t) && 0 in t.volumes && t.used == {u} && t.resolvable == {u, v}
    ensures t.cluster.inProgress == "" && t.restores.Keys == {n} && t.jobs.Keys == {n} && t.jobPods == {n}
    ensures t.cluster.last == LastRestore(n, u, Interrupted)
  {
    t := FirstClaims(f, n, u, {u, v});
    t := JobNamed(f, t, n);
    t := JobRuns(f, t, n);
    t := Extend(f, t, DeleteRestore(n));
    t := FinalizedWithPod(f, t, n);
  }

  /** A Restore n deleted while its Job runs does not keep a second, confirmed Restore m waiting:
      both Jobs get to write the data volume. No target ever comes back in that run. */
  lemma DeletedRestoreLosesExclusion(n: string, u: string, m: string, v: string)
    requires n != "" && '/' !in n && m != "" && '/' !in m && n != m && u != v
    ensures exists s, t :: Init(s) && Leads(From(s, NoAppearance), t) && TwoJobsWrite(t, m, n)
  {
    var f := From(Confirming(n, {u, v}), NoAppearance);
    var t := DeletedWhileRunning(f, n, u, v);
    t := Created(f, t, m, v);
    t := Extend(f, t, SetAllow(m + "/" + v));
    CutJoined(m, v);
    t := Claimed(f, t, m, v);
    t := SecondJobRuns(f, t, m, n);
  }

  lemma SucceededThenCrashed(f: From, s: State, n: string) returns (t: State)
    requires Leads(f, s) && s.worker.Idle? && n in s.restores && n in s.jobs && Standbys(s) == {} && ActiveJob(s, n)
    requires var r := s.restores[n];
             !r.deleting && r.finalizer && Unfinished(r) && r.jobRecorded && s.jobs[n].owner == r.uid
    ensures Leads(f, t)
    ensures t == FinishJob(s, n, Complete).(won := s.won + {s.jobs[n].owner},
                                            cluster := FinishAnnotations(s.cluster, n, RestoreSucceeded))
  {
    t := Extend(f, s, JobCompletes(n));
    assert Standbys(t) == {};
    t := Reconcile(f, t, n);
    t := Write(f, t);
    t := Extend(f, t, Crash);
  }

  lemma FirstSucceedsUnrecorded(f: From, n: string, u: string, v: string) returns (t: State)
    requires n != "" && '/' !in n && u != v && f == From(Confirming(n, {u, v}), NoAppearance)
    ensures Leads(f, t) && Init(f.start) && Inv(f.start)
    ensures t.worker.Idle? && PgOff(t) && t.sts.None? && t.volumes == map[0 := false]
    ensures t.cluster == Cluster("", "", "", Never) && t.jobPods == {} && t.used == {u} && t.resolvable == {u, v}
    ensures t.restores == map[n := Recorded(Fresh(u)).(reason := Restoring)]
            && t.jobs == map[n := Job(u, Complete, false)]
  {
    t := FirstClaims(f, n, u, {u, v});
    t := JobNamed(f, t, n);
    t := JobRuns(f, t, n);
    assert Standbys(t) == {};
    t := SucceededThenCrashed(f, t, n);
    CutJoined(n, "");
  }

  lemma RunsAndIsDeleted(f: From, s: State, m: string) returns (t: State)
    requires f.kind !in {NoDeletion, Unaided} && Leads(f, s) && ReadyToRecord(s, m) && s.jobPods == {}
    ensures Leads(f, t) && t.worker.Idle? && t.cluster.inProgress == "" && t.volumes == s.volumes
    ensures t.restores.Keys == s.restores.Keys
    ensures forall n | n in s.restores && n != m :: t.restores[n] == s.restores[n]
    ensures t.jobs == s.jobs[m := Job(s.restores[m].uid, Active, true)] && t.jobPods == {m}
  {
    t := JobNamed(f, s, m);
    t := JobRuns(f, t, m);
    t := Extend(f, t, DeleteRestore(m));
    t := FinalizedWithPod(f, t, m);
  }

  lemma SecondRunsAndIsDeleted(f: From, s: State, m: string, v: string) returns (t: State)
    requires f.kind !in {NoDeletion, Unaided} && Leads(f, s)
    requires s.worker.Idle? && s.sts.None? && s.pgPods == {} && 0 in s.volumes && s.jobPods == {}
    requires m != "" && '/' !in m && m !in s.restores && m !in s.jobs && v !in s.used && v in s.resolvable
    requires s.cluster == Cluster("", "", "", Never)
    ensures Leads(f, t) && t.worker.Idle? && t.cluster.inProgress == "" && t.volumes == s.volumes
    ensures t.restores.Keys == s.restores.Keys + {m} && (forall n | n in s.restores :: t.restores[n] == s.restores[n])
    ensures t.jobs == s.jobs[m := Job(v, Active, true)] && t.jobPods == {m}
  {
    t := Created(f, s, m, v);
    t := Extend(f, t, SetAllow(m + "/" + v));
    CutJoined(m, v);
    t := Claimed(f, t, m, v);
    t := RunsAndIsDeleted(f, t, m);
  }

  /** A Restore whose success was not recorded (a crash) succeeds again while another, deleted one
      still has its Job's pod, and starts PostgreSQL beside it. No target ever comes back in that run. */
  lemma UnrecordedSuccessStartsPostgres(n: string, u: string, m: string, v: string)
    requires n != "" && '/' !in n && m != "" && '/' !in m && n != m && u != v
    ensures exists s, t :: Init(s) && Leads(From(s, NoAppearance), t) && PostgresBesideJob(t, m)
  {
    var f := From(Confirming(n, {u, v}), NoAppearance);
    var t := FirstSucceedsUnrecorded(f, n, u, v);
    t := SecondRunsAndIsDeleted(f, t, m, v);
    assert Standbys(t) == {};
    t := Reconcile(f, t, n);
    assert Live(t, m);
    t := SecondSuccess(f, t, m);
  }
}
