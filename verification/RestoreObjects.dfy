/** The parts of the restore protocol that change objects in place: the Cluster's annotation map and
    status, the standbys' volumes and the Restore's status. Their methods are proved against the steps of
    RestoreModel. */
module RestoreObjects {
  import opened Option
  import RestoreModel
  import Replication
  import Decimal

  const IN_PROGRESS := "pgop.ruck.io/restore-in-progress"
  const INTERRUPTED := "pgop.ruck.io/restore-interrupted"
  const ALLOW := "pgop.ruck.io/allow-restore"

  type Annotations = map<string, string>

  function Get(ann: Annotations, key: string): string {
    if key in ann then ann[key] else ""
  }

  /** The Cluster as RestoreModel sees it. */
  function Abstract(ann: Annotations, last: RestoreModel.LastRestore): RestoreModel.Cluster {
    RestoreModel.Cluster(Get(ann, IN_PROGRESS), Get(ann, INTERRUPTED), Get(ann, ALLOW), last)
  }

  ghost predicate SameOthers(a: Annotations, b: Annotations) {
    forall k :: k != IN_PROGRESS && k != INTERRUPTED && k != ALLOW ==> (k in a <==> k in b) && (k in a ==> a[k] == b[k])
  }

  lemma KeysDiffer()
    ensures IN_PROGRESS != INTERRUPTED && IN_PROGRESS != ALLOW && INTERRUPTED != ALLOW
  {
    assert |IN_PROGRESS| == 32 && |INTERRUPTED| == 32 && |ALLOW| == 26;
    assert IN_PROGRESS[23] == '-' && INTERRUPTED[23] == 't';
  }

  datatype Outcome = Done | Failed

  /** The Cluster, its data volumes (true: being deleted), and the Restore's status. A write that fails may
      have been applied; one under a resource version fails without effect when the object has changed. */
  class World {
    var annotations: Annotations
    var last: RestoreModel.LastRestore
    var volumes: map<string, bool>
    var phase: RestoreModel.Phase
    var reason: RestoreModel.Reason
    /** Every call succeeds. */
    const reliable: bool

    method PatchAnnotations(ann: Annotations) returns (r: Outcome)
      modifies this`annotations
      ensures (annotations == ann || annotations == old(annotations)) && (r.Done? ==> annotations == ann)
      ensures reliable ==> r.Done?
    {
      r := *;
      if reliable {
        r := Done;
      }
      var applied: bool := *;
      if applied || r.Done? {
        annotations := ann;
      }
    }

    method PatchLast(l: RestoreModel.LastRestore) returns (r: Outcome)
      modifies this`last
      ensures (last == l || last == old(last)) && (r.Done? ==> last == l) && (reliable ==> r.Done?)
    {
      r := *;
      if reliable {
        r := Done;
      }
      var applied: bool := *;
      if applied || r.Done? {
        last := l;
      }
    }

    method ListVolumes() returns (names: set<string>, r: Outcome)
      ensures names == if r.Done? then volumes.Keys else {}
      ensures reliable ==> r.Done?
    {
      names, r := {}, *;
      if reliable {
        r := Done;
      }
      if r.Done? {
        names := volumes.Keys;
      }
    }

    method DeleteVolume(name: string) returns (r: Outcome)
      modifies this`volumes
      ensures volumes == old(volumes) || volumes == old(volumes) - {name}
              || (name in old(volumes) && volumes == old(volumes)[name := true])
      ensures r.Done? ==> name !in volumes || volumes[name]
      ensures reliable ==> r.Done?
    {
      r := *;
      if reliable {
        r := Done;
      }
      var applied: bool, finalizer: bool := *, *;
      if applied || r.Done? {
        volumes := if finalizer && name in volumes then volumes[name := true] else volumes - {name};
      }
    }

    method UpdateStatus(p: RestoreModel.Phase, q: RestoreModel.Reason) returns (r: Outcome)
      modifies this`phase, this`reason
      ensures ((phase, reason) == (p, q) || (phase == old(phase) && reason == old(reason)))
      ensures r.Done? ==> phase == p && reason == q
      ensures reliable ==> r.Done?
    {
      r := *;
      if reliable {
        r := Done;
      }
      var applied: bool := *;
      if applied || r.Done? {
        phase, reason := p, q;
      }
    }
  }

  /** The in-place changes of the annotation map are the model's step. */
  method FinishAnnotations(before: Annotations, name: string, outcome: RestoreModel.Outcome) returns (ann: Annotations)
    requires name != ""
    ensures forall l :: Abstract(ann, l) == RestoreModel.FinishAnnotations(Abstract(before, l), name, outcome)
    ensures SameOthers(before, ann)
  {
    KeysDiffer();
    ann := before;
    if Get(ann, IN_PROGRESS) == name {
      ann := ann - {IN_PROGRESS};
    }
    if RestoreModel.CutSlash(Get(ann, ALLOW)).0 == name {
      ann := ann - {ALLOW};
    }
    match outcome
    case RestoreSucceeded => ann := ann - {INTERRUPTED};
    case RestoreFailed => ann := ann[INTERRUPTED := name];
    case Interrupted => ann := ann[INTERRUPTED := name];
    case Released =>
  }

  /** finishOnCluster: the annotations first, and then status.lastRestore. */
  method FinishOnCluster(w: World, name: string, uid: string, ownJob: bool, outcome: RestoreModel.Outcome)
      returns (r: Outcome)
    requires name != ""
    modifies w`annotations, w`last
    ensures SameOthers(old(w.annotations), w.annotations)
    ensures var o := if outcome.Released? && ownJob then RestoreModel.Interrupted else outcome;
            var before := old(Abstract(w.annotations, w.last));
            var finished := RestoreModel.FinishAnnotations(before, name, o);
            var recorded := if o.Released? then finished else finished.(last := RestoreModel.LastRestore(name, uid, o));
            var after := Abstract(w.annotations, w.last);
            (after == before || after == finished || after == recorded) && (r.Done? ==> after == recorded)
    ensures w.reliable ==> r.Done?
  {
    var o := if outcome.Released? && ownJob then RestoreModel.Interrupted else outcome;
    var ann := FinishAnnotations(w.annotations, name, o);
    r := Done;
    if ann != w.annotations {
      r := w.PatchAnnotations(ann);
      if !r.Done? {
        return;
      }
    }
    if o.Released? {
      return;
    }
    var l := RestoreModel.LastRestore(name, uid, o);
    if w.last != l {
      r := w.PatchLast(l);
    }
  }

  /** A data volume of the Cluster, with an ordinal of 1 or more. */
  ghost predicate StandbyVolume(cluster: string, x: string) {
    exists n: nat :: 1 <= n < Decimal.INT64_LIMIT && x == "data-" + cluster + "-" + Decimal.PrintNat(n)
  }

  lemma StandbyOrdinal(cluster: string, x: string)
    ensures var n := Replication.VolumeOrdinal(cluster, x); StandbyVolume(cluster, x) <==> n.Some? && n.value != 0
  {
    var n := Replication.VolumeOrdinal(cluster, x);
    if n.Some? {
      Replication.StandbyNames(cluster, x, n.value);
    }
    if m: nat :| 1 <= m < Decimal.INT64_LIMIT && x == "data-" + cluster + "-" + Decimal.PrintNat(m) {
      Replication.StandbyNames(cluster, x, m);
    }
  }

  ghost predicate OnlyStandbysChange(cluster: string, before: map<string, bool>, after: map<string, bool>) {
    forall x :: !StandbyVolume(cluster, x) ==> (x in after <==> x in before) && (x in after ==> after[x] == before[x])
  }

  ghost function StandbyVolumes(cluster: string, volumes: map<string, bool>): set<string> {
    set x | x in volumes && StandbyVolume(cluster, x)
  }

  /** The listed volumes that are not in rest have been looked at. */
  ghost predicate Swept(cluster: string, listed: map<string, bool>, now: map<string, bool>, rest: set<string>) {
    && rest <= listed.Keys && now.Keys <= listed.Keys
    && (forall x <- rest :: x in now && now[x] == listed[x])
    && OnlyStandbysChange(cluster, listed, now)
    && (forall x <- now :: x !in rest && StandbyVolume(cluster, x) ==> now[x])
  }

  /** Volume x is looked at: a standby's is being deleted or gone after that. */
  lemma SweptNext(cluster: string, listed: map<string, bool>, now: map<string, bool>, after: map<string, bool>,
                  rest: set<string>, x: string)
    requires Swept(cluster, listed, now, rest) && x in rest
    requires after == now || (StandbyVolume(cluster, x) && (after == now - {x} || after == now[x := true]))
    requires StandbyVolume(cluster, x) && x in after ==> after[x]
    ensures Swept(cluster, listed, after, rest - {x})
  {
  }

  /** The standbys' volumes that have been looked at. */
  ghost predicate Counted(cluster: string, listed: map<string, bool>, rest: set<string>, counted: set<string>) {
    forall x :: x in counted <==> x in listed && x !in rest && StandbyVolume(cluster, x)
  }

  lemma AllCounted(cluster: string, listed: map<string, bool>, counted: set<string>)
    requires Counted(cluster, listed, {}, counted)
    ensures counted == StandbyVolumes(cluster, listed)
  {
  }

  /** Volume x, as deleteStandbyVolumes comes to it. */
  method DeleteIfStandby(w: World, cluster: string, x: string) returns (r: Outcome, standby: bool)
    requires x in w.volumes
    modifies w`volumes
    ensures standby <==> StandbyVolume(cluster, x)
    ensures OnlyStandbysChange(cluster, old(w.volumes), w.volumes)
    ensures w.volumes == old(w.volumes)
            || (StandbyVolume(cluster, x)
                && (w.volumes == old(w.volumes) - {x} || w.volumes == old(w.volumes)[x := true]))
    ensures r.Done? && StandbyVolume(cluster, x) && x in w.volumes ==> w.volumes[x]
    ensures w.reliable ==> r.Done?
  {
    r, standby := Done, false;
    StandbyOrdinal(cluster, x);
    var n := Replication.VolumeOrdinal(cluster, x);
    if n.None? || n.value == 0 {
      return;
    }
    standby := true;
    if !w.volumes[x] {
      r := w.DeleteVolume(x);
    }
  }

  /** deleteStandbyVolumes: remaining counts the ones that were listed. */
  method DeleteStandbyVolumes(w: World, cluster: string) returns (remaining: nat, r: Outcome)
    modifies w`volumes
    ensures OnlyStandbysChange(cluster, old(w.volumes), w.volumes)
    ensures r.Done? ==> remaining == |StandbyVolumes(cluster, old(w.volumes))|
    ensures r.Done? ==> forall x :: x in w.volumes && StandbyVolume(cluster, x) ==> w.volumes[x]
    ensures r.Done? && remaining == 0 ==> w.volumes == old(w.volumes)
    ensures w.reliable ==> r.Done?
  {
    remaining := 0;
    ghost var listed := w.volumes;
    ghost var counted: set<string> := {};
    var rest;
    rest, r := w.ListVolumes();
    if !r.Done? {
      return;
    }
    while rest != {}
      invariant Swept(cluster, listed, w.volumes, rest)
      invariant Counted(cluster, listed, rest, counted) && remaining == |counted|
      invariant remaining == 0 ==> w.volumes == listed
      decreases rest
    {
      var x :| x in rest;
      ghost var now := w.volumes;
      var standby;
      r, standby := DeleteIfStandby(w, cluster, x);
      if !r.Done? {
        return;
      }
      if standby {
        remaining := remaining + 1;
        counted := counted + {x};
      }
      SweptNext(cluster, listed, now, w.volumes, rest, x);
      rest := rest - {x};
    }
    AllCounted(cluster, listed, counted);
    r := Done;
  }

  /** completePhysicalRestore: the Cluster starts again only when no standby volume was left. */
  method CompletePhysicalRestore(w: World, cluster: string, name: string, uid: string) returns (r: Outcome)
    requires name != ""
    modifies w`annotations, w`last, w`volumes, w`phase, w`reason
    ensures OnlyStandbysChange(cluster, old(w.volumes), w.volumes) && SameOthers(old(w.annotations), w.annotations)
    ensures old(StandbyVolumes(cluster, w.volumes)) != {} ==>
              w.annotations == old(w.annotations) && w.last == old(w.last)
                  && (w.phase.Succeeded? ==> old(w.phase.Succeeded?))
    ensures r.Done? && w.phase.Succeeded? && !old(w.phase.Succeeded?) ==>
              Abstract(w.annotations, w.last)
              == RestoreModel.FinishAnnotations(old(Abstract(w.annotations, w.last)), name,
                                                RestoreModel.RestoreSucceeded)
                 .(last := RestoreModel.LastRestore(name, uid, RestoreModel.RestoreSucceeded))
    ensures r.Done? ==> if old(StandbyVolumes(cluster, w.volumes)) == {}
          then w.phase.Succeeded? else w.phase.Running? && w.reason.Restoring?
    ensures w.reliable ==> r.Done?
  {
    var remaining;
    remaining, r := DeleteStandbyVolumes(w, cluster);
    if !r.Done? {
      return;
    }
    if remaining > 0 {
      r := w.UpdateStatus(RestoreModel.Running, RestoreModel.Restoring);
      return;
    }
    r := FinishOnCluster(w, name, uid, true, RestoreModel.RestoreSucceeded);
    if r.Done? {
      r := w.UpdateStatus(RestoreModel.Succeeded, RestoreModel.Ended);
    }
  }
}
