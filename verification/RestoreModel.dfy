/** The physical restore protocol as a state machine: Restores, the Cluster's annotations, the
    StatefulSet with its pods and volumes, the restore Jobs, and the Restore controller's own
    progress between two API writes.

    Every API write of the Restore controller is one step. A reconcile reads the current objects
    (`Start`), keeps what it read, and performs its writes later, one at a time (`Work`); in between
    everybody else may act, and a crash drops what it kept (`Crash`). A write under a resource
    version succeeds only if the object is still as it was read; a conflict has no effect and ends
    the reconcile. */
module RestoreModel {
  import opened Option

  datatype Phase = NoPhase | Pending | Running | Succeeded | Failed

  datatype Reason = NoReason | AwaitingConfirmation | StoppingCluster | WaitingForOther
                  | WaitingForOldJob | CreatingJob | Restoring | Ended

  /** A physical Restore. jobRecorded: status.jobName is set (it is always the Restore's own name
      with a fixed suffix). deleting: the deletion timestamp is set. */
  datatype Restore = Restore(uid: string, phase: Phase, reason: Reason, jobRecorded: bool,
                             finalizer: bool, deleting: bool)

  predicate Unfinished(r: Restore) {
    !r.phase.Succeeded? && !r.phase.Failed?
  }

  /** How a Restore left the Cluster. */
  datatype Outcome = Released | RestoreSucceeded | RestoreFailed | Interrupted

  datatype LastRestore = Never | LastRestore(name: string, uid: string, outcome: Outcome)

  /** The Cluster's annotations ("" when absent) and status.lastRestore. */
  datatype Cluster = Cluster(inProgress: string, interrupted: string, allow: string, last: LastRestore)

  predicate Paused(c: Cluster) {
    c.inProgress != "" || c.interrupted != ""
  }

  datatype StatefulSet = StatefulSet(replicas: nat, statusReplicas: nat)

  datatype JobState = Active | Complete | JobFailed

  datatype Job = Job(owner: string, state: JobState, deleting: bool)

  /** What a reconcile does once finishOnCluster has returned. */
  datatype After = MarkFailed | MarkSucceeded | DropFinalizer | StopTheJob(hadJob: bool)

  /** The next API write of the reconcile that is running, with the objects it read. */
  datatype Worker =
    | Idle
    | AddFinalizer(name: string, seen: Restore)
    | Claim(name: string, seen: Restore, read: Cluster)
    | WriteStatus(name: string, seen: Restore, next: Restore)
    | CreateJob(name: string, seen: Restore)
    | DeleteVolumes(name: string, seen: Restore, todo: set<nat>)
    | Finish(name: string, seen: Restore, outcome: Outcome, after: After)
    | Record(name: string, seen: Restore, outcome: Outcome, after: After)
    | StopJob(name: string, seen: Restore, hadJob: bool)
    | RemoveFinalizer(name: string, seen: Restore)

  /** jobs and jobPods are indexed by the name of the Restore the Job is named after. volumes maps
      the ordinal of a data volume to whether it is being deleted. used, ran and won are history:
      the UIDs given out, those whose Job was created, and those whose Job completed. resolvable
      holds the UIDs whose BackupRun, Backup and Cluster currently resolve to a valid target. */
  datatype State = State(restores: map<string, Restore>, cluster: Cluster, sts: Option<StatefulSet>,
                         pgPods: set<nat>, volumes: map<nat, bool>, jobs: map<string, Job>,
                         jobPods: set<string>, resolvable: set<string>, worker: Worker,
                         used: set<string>, ran: set<string>, won: set<string>)

  // ---------- reads ----------

  /** strings.Cut at the first slash. */
  function CutSlash(v: string): (r: (string, string, bool))
    ensures r.2 ==> v == r.0 + "/" + r.1 && '/' !in r.0
    ensures !r.2 ==> r.0 == v && '/' !in v
  {
    if v == "" then ("", "", false)
    else if v[0] == '/' then ("", v[1..], true)
    else var (a, b, found) := CutSlash(v[1..]); ([v[0]] + a, b, found)
  }

  lemma {:induction false} CutJoined(n: string, rest: string)
    requires '/' !in n
    ensures CutSlash(n + "/" + rest) == (n, rest, true) && CutSlash(n) == (n, "", false)
  {
    if n == "" {
      assert "" + "/" + rest == "/" + rest && ("/" + rest)[1..] == rest;
    } else {
      assert (n + "/" + rest)[1..] == n[1..] + "/" + rest;
      CutJoined(n[1..], rest);
      assert [n[0]] + n[1..] == n;
    }
  }

  /** restoreConfirmation: the allow-restore annotation names this Restore, with its UID once the
      Cluster has seen another Restore through. */
  predicate Confirmed(c: Cluster, name: string, uid: string) {
    var (confirmed, confirmedUid, withUid) := CutSlash(c.allow);
    var needUid := c.last.LastRestore? && c.last.uid != uid;
    && c.allow != ""
    && confirmed == name
    && (withUid ==> confirmedUid == uid)
    && (needUid ==> withUid)
  }

  predicate RestoreActive(s: State, name: string) {
    name in s.restores && Unfinished(s.restores[name])
  }

  predicate ClusterStopped(s: State) {
    && (s.sts.Some? ==> s.sts.value.replicas == 0 && s.sts.value.statusReplicas == 0)
    && s.pgPods == {}
  }

  predicate OwnJob(s: State, name: string, uid: string) {
    name in s.jobs && s.jobs[name].owner == uid
  }

  function Standbys(s: State): set<nat> {
    set i | i in s.volumes && i != 0
  }

  // ---------- one reconcile, up to its first write ----------

  function Progress(name: string, r: Restore, reason: Reason): Worker {
    WriteStatus(name, r, r.(phase := Running, reason := reason))
  }

  function CompleteRestore(s: State, name: string, r: Restore): Worker {
    if Standbys(s) == {} then Finish(name, r, RestoreSucceeded, MarkSucceeded)
    else DeleteVolumes(name, r, set i | i in Standbys(s) && !s.volumes[i])
  }

  function FollowJob(s: State, name: string, r: Restore): Worker {
    if name !in s.jobs && r.reason == CreatingJob then
      if r.uid in s.resolvable then CreateJob(name, r) else Finish(name, r, Released, MarkFailed)
    else if !OwnJob(s, name, r.uid) then Finish(name, r, Interrupted, MarkFailed)
    else match s.jobs[name].state
      case Complete => CompleteRestore(s, name, r)
      case JobFailed => Finish(name, r, RestoreFailed, MarkFailed)
      case Active => Progress(name, r, Restoring)
  }

  function Finalize(s: State, name: string, r: Restore): Worker {
    if !Unfinished(r) then RemoveFinalizer(name, r)
    else
      var own := OwnJob(s, name, r.uid);
      if !own && (!r.jobRecorded || r.reason == CreatingJob) then Finish(name, r, Released, DropFinalizer)
      else if own && !s.jobs[name].deleting && s.jobs[name].state.Complete? then CompleteRestore(s, name, r)
      else Finish(name, r, Interrupted, StopTheJob(own))
  }

  function Prepare(s: State, name: string, r: Restore): Worker {
    if r.uid !in s.resolvable then Finish(name, r, Released, MarkFailed)
    else if s.cluster.inProgress != name then
      if !Confirmed(s.cluster, name, r.uid) then
        WriteStatus(name, r, r.(phase := Pending, reason := AwaitingConfirmation))
      else if s.cluster.inProgress != "" && RestoreActive(s, s.cluster.inProgress) then
        Progress(name, r, WaitingForOther)
      else Claim(name, r, s.cluster)
    else if !ClusterStopped(s) then Progress(name, r, StoppingCluster)
    else if 0 !in s.volumes then Finish(name, r, Released, MarkFailed)
    else if name in s.jobs && s.jobs[name].owner != r.uid then Progress(name, r, WaitingForOldJob)
    else WriteStatus(name, r, r.(phase := Running, reason := CreatingJob, jobRecorded := true))
  }

  /** reconcilePhysicalRestore. Once the finalizer is added the reconcile goes on as if it had
      just started. */
  function Decide(s: State, name: string): Worker
    requires name in s.restores
  {
    var r := s.restores[name];
    if r.deleting then (if r.finalizer then Finalize(s, name, r) else Idle)
    else if !Unfinished(r) then Idle
    else if !r.finalizer then AddFinalizer(name, r)
    else if r.jobRecorded then FollowJob(s, name, r)
    else Prepare(s, name, r)
  }

  // ---------- the writes ----------

  /** finishOnCluster, the annotations: one patch. */
  function FinishAnnotations(c: Cluster, name: string, outcome: Outcome): Cluster {
    var c1 := if c.inProgress == name then c.(inProgress := "") else c;
    var c2 := if CutSlash(c.allow).0 == name then c1.(allow := "") else c1;
    match outcome
    case Released => c2
    case RestoreSucceeded => c2.(interrupted := "")
    case RestoreFailed => c2.(interrupted := name)
    case Interrupted => c2.(interrupted := name)
  }

  function Continue(name: string, seen: Restore, after: After): Worker {
    match after
    case MarkFailed => WriteStatus(name, seen, seen.(phase := Failed, reason := Ended))
    case MarkSucceeded => WriteStatus(name, seen, seen.(phase := Succeeded, reason := Ended))
    case DropFinalizer => RemoveFinalizer(name, seen)
    case StopTheJob(hadJob) => StopJob(name, seen, hadJob)
  }

  /** finishOnCluster treats a release as interrupted when a Job of the Restore exists after all. */
  function Settled(s: State, name: string, uid: string, outcome: Outcome): Outcome {
    if outcome.Released? && OwnJob(s, name, uid) then Interrupted else outcome
  }

  predicate Unchanged(s: State, name: string, seen: Restore) {
    name in s.restores && s.restores[name] == seen
  }

  /** The next write of the running reconcile. */
  function Perform(s: State): State {
    match s.worker
    case Idle => s
    case AddFinalizer(n, seen) =>
      if Unchanged(s, n, seen) then s.(restores := s.restores[n := seen.(finalizer := true)], worker := Idle)
      else s.(worker := Idle)
    case Claim(n, seen, read) =>
      if s.cluster == read then s.(cluster := read.(inProgress := n), worker := Progress(n, seen, StoppingCluster))
      else s.(worker := Idle)
    case WriteStatus(n, seen, next) =>
      if Unchanged(s, n, seen) then s.(restores := s.restores[n := next], worker := Idle)
      else s.(worker := Idle)
    case CreateJob(n, seen) =>
      var s1 := s.(worker := Progress(n, seen, Restoring));
      if n in s.jobs then s1
      else s1.(jobs := s.jobs[n := Job(seen.uid, Active, false)], ran := s.ran + {seen.uid})
    case DeleteVolumes(n, seen, todo) => s.(worker := Progress(n, seen, Restoring))
    case Finish(n, seen, o, after) =>
      var outcome := Settled(s, n, seen.uid, o);
      s.(cluster := FinishAnnotations(s.cluster, n, outcome),
         worker := if outcome.Released? then Continue(n, seen, after) else Record(n, seen, outcome, after))
    case Record(n, seen, o, after) =>
      s.(cluster := s.cluster.(last := LastRestore(n, seen.uid, o)), worker := Continue(n, seen, after))
    case StopJob(n, seen, hadJob) =>
      if hadJob then
        if n in s.jobs then s.(jobs := s.jobs[n := s.jobs[n].(deleting := true)], worker := Idle)
        else s.(worker := Idle)
      else if n in s.jobPods then s.(worker := Idle)
      else s.(worker := RemoveFinalizer(n, seen))
    case RemoveFinalizer(n, seen) =>
      if Unchanged(s, n, seen) then s.(restores := s.restores - {n}, worker := Idle)
      else s.(worker := Idle)
  }

  // ---------- everything that can happen ----------

  datatype Event =
    // the Restore controller
    | Start(name: string) | Work | DeleteVolume(ordinal: nat) | Crash
    // users
    | CreateRestore(name: string, uid: string) | DeleteRestore(name: string) | SetAllow(value: string)
    | ClearInterrupted | TargetAppears(uid: string) | TargetVanishes(uid: string) | MarkVolume(ordinal: nat)
    | DeleteSts
    // the Cluster controller
    | ClusterReconcile(want: nat)
    // the StatefulSet and Job controllers
    | RefreshStsStatus | StartPod(ordinal: nat) | StopPod(ordinal: nat) | RemoveVolume(ordinal: nat)
    | JobPodStarts(name: string) | JobPodEnds(name: string) | JobCompletes(name: string)
    | JobFails(name: string) | JobRemoved(name: string)

  predicate ActiveJob(s: State, name: string) {
    name in s.jobs && s.jobs[name].state.Active?
  }

  /** The Job has a running pod, or may still start one. */
  predicate Live(s: State, name: string) {
    ActiveJob(s, name) && (name in s.jobPods || !s.jobs[name].deleting)
  }

  /** The Restore owning the Job is still in reason CreatingJob. */
  predicate InCreation(s: State, name: string)
    requires name in s.jobs
  {
    && name in s.restores && s.restores[name].uid == s.jobs[name].owner
    && Unfinished(s.restores[name]) && s.restores[name].reason == CreatingJob
  }

  ghost predicate Enabled(s: State, e: Event) {
    match e
    case Start(n) => s.worker.Idle? && n in s.restores
    case Work => !s.worker.Idle? && (s.worker.DeleteVolumes? ==> s.worker.todo == {})
    case DeleteVolume(i) => s.worker.DeleteVolumes? && i in s.worker.todo
    case Crash => true
    case CreateRestore(n, u) => n != "" && '/' !in n && n !in s.restores && u !in s.used
    case DeleteRestore(n) => n in s.restores
    case SetAllow(v) => true
    case ClearInterrupted => forall n | n in s.jobs :: !Live(s, n)
    case TargetAppears(u) => true
    case TargetVanishes(u) => true
    case MarkVolume(i) => i in s.volumes
    case DeleteSts => true
    case ClusterReconcile(k) => k >= 1
    case RefreshStsStatus => s.sts.Some?
    case StartPod(i) => s.sts.Some? && i < s.sts.value.replicas
    case StopPod(i) => true
    case RemoveVolume(i) => i in s.volumes && s.volumes[i] && i !in s.pgPods
    case JobPodStarts(n) => ActiveJob(s, n) && !s.jobs[n].deleting
    case JobPodEnds(n) => true
    case JobCompletes(n) => ActiveJob(s, n)
    case JobFails(n) => ActiveJob(s, n)
    case JobRemoved(n) => n in s.jobs && n !in s.jobPods && (InCreation(s, n) ==> s.jobs[n].deleting)
  }

  function FinishJob(s: State, n: string, state: JobState): State
    requires n in s.jobs
  {
    s.(jobs := s.jobs[n := s.jobs[n].(state := state)], jobPods := s.jobPods - {n})
  }

  ghost function Next(s: State, e: Event): State
    requires Enabled(s, e)
  {
    match e
    case Start(n) => s.(worker := Decide(s, n))
    case Work => Perform(s)
    case DeleteVolume(i) =>
      s.(volumes := if i in s.volumes then s.volumes[i := true] else s.volumes,
         worker := s.worker.(todo := s.worker.todo - {i}))
    case Crash => s.(worker := Idle)
    case CreateRestore(n, u) =>
      s.(restores := s.restores[n := Restore(u, NoPhase, NoReason, false, false, false)], used := s.used + {u})
    case DeleteRestore(n) =>
      if s.restores[n].finalizer then s.(restores := s.restores[n := s.restores[n].(deleting := true)])
      else s.(restores := s.restores - {n})
    case SetAllow(v) => s.(cluster := s.cluster.(allow := v))
    case ClearInterrupted => s.(cluster := s.cluster.(interrupted := ""))
    case TargetAppears(u) => s.(resolvable := s.resolvable + {u})
    case TargetVanishes(u) => s.(resolvable := s.resolvable - {u})
    case MarkVolume(i) => s.(volumes := s.volumes[i := true])
    case DeleteSts => s.(sts := None)
    case ClusterReconcile(k) =>
      s.(sts := Some(StatefulSet(if Paused(s.cluster) then 0 else k,
                                 if s.sts.Some? then s.sts.value.statusReplicas else 0)))
    case RefreshStsStatus => s.(sts := Some(s.sts.value.(statusReplicas := |s.pgPods|)))
    case StartPod(i) => s.(pgPods := s.pgPods + {i},
                           volumes := if i in s.volumes then s.volumes else s.volumes[i := false])
    case StopPod(i) => s.(pgPods := s.pgPods - {i})
    case RemoveVolume(i) => s.(volumes := s.volumes - {i})
    case JobPodStarts(n) => s.(jobPods := s.jobPods + {n})
    case JobPodEnds(n) => s.(jobPods := s.jobPods - {n})
    case JobCompletes(n) => FinishJob(s, n, Complete).(won := s.won + {s.jobs[n].owner})
    case JobFails(n) => FinishJob(s, n, JobFailed)
    case JobRemoved(n) => s.(jobs := s.jobs - {n})
  }

  /** No Restore exists yet; the Cluster, its pods and volumes are in any state. */
  predicate Init(s: State) {
    && s.restores == map[] && s.jobs == map[] && s.jobPods == {} && s.worker == Idle
    && s.used == {} && s.ran == {} && s.won == {}
    && s.cluster.inProgress == "" && s.cluster.last == Never
  }

  /** es leads from s to t. */
  ghost predicate Run(s: State, es: seq<Event>, t: State)
    decreases |es|
  {
    if es == [] then s == t
    else Enabled(s, es[0]) && Run(Next(s, es[0]), es[1..], t)
  }
}
