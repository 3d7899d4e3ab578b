/** Replication: names and ordinals of standbys, the volumes of standbys that were scaled away, and the
    replication slots of the others. */
module Replication {
  import opened Option
  import opened Decimal

  // ---------- names ----------

  const SLOT_PREFIX := "pgop_replica_"

  /** strings.CutPrefix. */
  function CutPrefix(name: string, prefix: string): (rest: Option<string>)
    ensures rest.Some? <==> prefix <= name
    ensures rest.Some? ==> name == prefix + rest.value
  {
    if prefix <= name then Some(name[|prefix|..]) else None
  }

  /** The ordinal that name has after prefix, in the canonical decimal form only. */
  function ParseOrdinal(name: string, prefix: string): Option<nat> {
    var rest := CutPrefix(name, prefix);
    if rest.None? || rest.value == "" then None
    else
      var n := ParseInt(rest.value);
      if n.None? || n.value < 0 || PrintInt(n.value) != rest.value then None else Some(n.value)
  }

  /** The parser inverts the printer, and accepts nothing else. */
  lemma OrdinalNames(name: string, prefix: string, n: nat)
    ensures ParseOrdinal(name, prefix) == Some(n) <==> n < INT64_LIMIT && name == prefix + PrintNat(n)
  {
    if n < INT64_LIMIT && name == prefix + PrintNat(n) {
      assert name[|prefix|..] == PrintNat(n) == PrintInt(n);
      ParsePrintedInt(n);
    }
  }

  function VolumePrefix(cluster: string): string {
    "data-" + cluster + "-"
  }

  function PodPrefix(cluster: string): string {
    cluster + "-"
  }

  function VolumeOrdinal(cluster: string, name: string): Option<nat> {
    ParseOrdinal(name, VolumePrefix(cluster))
  }

  function PodOrdinal(cluster: string, name: string): Option<nat> {
    ParseOrdinal(name, PodPrefix(cluster))
  }

  function SlotOrdinal(name: string): Option<nat> {
    ParseOrdinal(name, SLOT_PREFIX)
  }

  function SlotName(n: nat): string {
    SLOT_PREFIX + PrintNat(n)
  }

  /** The names of volumes, pods and slots. */
  lemma StandbyNames(cluster: string, name: string, n: nat)
    ensures VolumeOrdinal(cluster, name) == Some(n) <==>
            n < INT64_LIMIT && name == "data-" + cluster + "-" + PrintNat(n)
    ensures PodOrdinal(cluster, name) == Some(n) <==> n < INT64_LIMIT && name == cluster + "-" + PrintNat(n)
    ensures SlotOrdinal(name) == Some(n) <==> n < INT64_LIMIT && name == "pgop_replica_" + PrintNat(n)
  {
    OrdinalNames(name, VolumePrefix(cluster), n);
    OrdinalNames(name, PodPrefix(cluster), n);
    OrdinalNames(name, SLOT_PREFIX, n);
  }

  /** Digits hold no hyphen, so a prefix that ends with one is determined by the whole. */
  lemma PrefixBeforeDigits(a: string, x: string, b: string, y: string)
    requires AllDigits(x) && AllDigits(y) && a + "-" + x == b + "-" + y
    ensures a == b
  {
    var s, t := a + "-" + x, b + "-" + y;
    assert s[|a|] == '-' && t[|b|] == '-';
    assert forall k :: |a| < k < |s| ==> IsDigit(s[k]) && s[k] != '-';
    assert forall k :: |b| < k < |t| ==> IsDigit(t[k]) && t[k] != '-';
    assert a == s[..|a|] && b == t[..|b|];
  }

  /** No volume and no pod belongs to two Clusters, whatever hyphens and digits their names hold. */
  lemma NamesAreNotShared(a: string, b: string, name: string)
    requires (VolumeOrdinal(a, name).Some? && VolumeOrdinal(b, name).Some?)
             || (PodOrdinal(a, name).Some? && PodOrdinal(b, name).Some?)
    ensures a == b
  {
    if PodOrdinal(a, name).Some? && PodOrdinal(b, name).Some? {
      var n, m := PodOrdinal(a, name).value, PodOrdinal(b, name).value;
      OrdinalNames(name, PodPrefix(a), n);
      OrdinalNames(name, PodPrefix(b), m);
      PrefixBeforeDigits(a, PrintNat(n), b, PrintNat(m));
    } else {
      var n, m := VolumeOrdinal(a, name).value, VolumeOrdinal(b, name).value;
      OrdinalNames(name, VolumePrefix(a), n);
      OrdinalNames(name, VolumePrefix(b), m);
      PrefixBeforeDigits("data-" + a, PrintNat(n), "data-" + b, PrintNat(m));
      assert a == ("data-" + a)[5..] && b == ("data-" + b)[5..];
    }
  }

  // ---------- volumes and slots ----------

  datatype Slot = Slot(physical: bool, active: bool, lost: bool)

  datatype Outcome = Done | Failed

  /** The data volumes in the namespace (deleting: being removed), and the slots on the primary. A call
      that fails may have been applied. */
  class World {
    var volumes: map<string, bool>
    var slots: map<string, Slot>
    /** Every call succeeds that can be carried out. */
    const reliable: bool

    method ListVolumes() returns (names: set<string>, r: Outcome)
      ensures names == if r.Done? then volumes.Keys else {}
      ensures reliable ==> r.Done?
    {
      names, r := {}, *;
      if reliable {
        r := Done;
      }
      if r.Done? {
        names := volumes.Keys;
      }
    }

    method ListSlots() returns (names: set<string>, r: Outcome)
      ensures names == if r.Done? then slots.Keys else {}
      ensures reliable ==> r.Done?
    {
      names, r := {}, *;
      if reliable {
        r := Done;
      }
      if r.Done? {
        names := slots.Keys;
      }
    }

    method DeleteVolume(name: string) returns (r: Outcome)
      requires name in volumes
      modifies this`volumes
      ensures volumes == old(volumes) || volumes == old(volumes) - {name} || volumes == old(volumes)[name := true]
      ensures r.Done? ==> !Stays(volumes, name)
      ensures reliable ==> r.Done?
    {
      r := *;
      if reliable {
        r := Done;
      }
      var applied: bool, finalizer: bool := *, *;
      if applied || r.Done? {
        volumes := if finalizer then volumes[name := true] else volumes - {name};
      }
    }

    method DropSlot(name: string) returns (r: Outcome)
      modifies this`slots
      ensures slots == old(slots) || slots == old(slots) - {name}
      ensures r.Done? ==> slots == old(slots) - {name}
      ensures reliable ==> r.Done?
    {
      r := *;
      if reliable {
        r := Done;
      }
      var applied: bool := *;
      if applied || r.Done? {
        slots := slots - {name};
      }
    }

    method CreateSlot(name: string) returns (r: Outcome)
      modifies this`slots
      ensures slots == old(slots) || (name !in old(slots) && slots == old(slots)[name := NEW_SLOT])
      ensures r.Done? ==> slots == old(slots)[name := NEW_SLOT]
      ensures reliable && name !in old(slots) ==> r.Done?
    {
      r := *;
      if reliable {
        r := Done;
      }
      var applied: bool := *;
      if name in slots {
        r := Failed;
      } else if applied || r.Done? {
        slots := slots[name := NEW_SLOT];
      }
    }
  }

  const NEW_SLOT := Slot(true, false, false)

  ghost predicate Stays(volumes: map<string, bool>, name: string) {
    name in volumes && !volumes[name]
  }

  /** The volume of a standby that was scaled away and whose pod is gone. */
  ghost predicate Obsolete(cluster: string, name: string, replicas: nat, pods: set<nat>) {
    var n := VolumeOrdinal(cluster, name);
    n.Some? && n.value != 0 && n.value >= replicas && n.value !in pods
  }

  function VolumeName(cluster: string, n: nat): string {
    VolumePrefix(cluster) + PrintNat(n)
  }

  /** Another Cluster's volume, the primary's, or that of a standby which may still need it: it stays
      as it is. Of an obsolete one, nothing is claimed. */
  ghost predicate OnlyObsoleteDeleted(cluster: string, replicas: nat, pods: set<nat>, before: map<string, bool>,
                                      after: map<string, bool>) {
    forall x :: !Obsolete(cluster, x, replicas, pods) ==>
          (x in after <==> x in before) && (x in after ==> after[x] == before[x])
  }

  /** The Cluster's volume with ordinal n is there, and not about to go. */
  ghost predicate Kept(cluster: string, volumes: map<string, bool>, n: nat) {
    n < INT64_LIMIT && VolumeName(cluster, n) in volumes && (n == 0 || !volumes[VolumeName(cluster, n)])
  }

  /** What is known of the volumes when those in rest have not been looked at. */
  ghost predicate Cleaned(cluster: string, replicas: nat, pods: set<nat>, before: map<string, bool>,
                          now: map<string, bool>, rest: set<string>) {
    && OnlyObsoleteDeleted(cluster, replicas, pods, before, now)
    && (forall x <- rest :: x in now && x in before && now[x] == before[x])
    && (forall x :: x !in rest && Obsolete(cluster, x, replicas, pods) ==> !Stays(now, x))
  }

  ghost predicate Remains(cluster: string, now: map<string, bool>, rest: set<string>, remaining: set<nat>, n: nat) {
    if VolumeName(cluster, n) in rest then n !in remaining else n in remaining <==> Kept(cluster, now, n)
  }

  /** The listing has come to volume x. */
  ghost predicate LooksAt(cluster: string, replicas: nat, pods: set<nat>, now: map<string, bool>,
                          after: map<string, bool>,
                          x: string, remaining: set<nat>, remaining': set<nat>) {
    var n := VolumeOrdinal(cluster, x);
    && (after == now || (Obsolete(cluster, x, replicas, pods) && (after == now - {x} || after == now[x := true])))
    && (Obsolete(cluster, x, replicas, pods) ==> !Stays(after, x))
    && remaining' == if n.Some? && Kept(cluster, after, n.value) then remaining + {n.value} else remaining
  }

  lemma RemainsNext(cluster: string, replicas: nat, pods: set<nat>, now: map<string, bool>, after: map<string, bool>,
                    rest: set<string>, x: string, remaining: set<nat>, remaining': set<nat>, n: nat)
    requires LooksAt(cluster, replicas, pods, now, after, x, remaining, remaining')
    requires x in rest && Remains(cluster, now, rest, remaining, n)
    ensures Remains(cluster, after, rest - {x}, remaining', n)
  {
    var ordinal := VolumeOrdinal(cluster, x);
    if ordinal.Some? {
      OrdinalNames(x, VolumePrefix(cluster), ordinal.value);
    }
    OrdinalNames(VolumeName(cluster, n), VolumePrefix(cluster), n);
  }

  lemma CleanedNext(cluster: string, replicas: nat, pods: set<nat>, before: map<string, bool>, now: map<string, bool>,
                    after: map<string, bool>, rest: set<string>, x: string, remaining: set<nat>, remaining': set<nat>)
    requires x in rest && Cleaned(cluster, replicas, pods, before, now, rest)
    requires LooksAt(cluster, replicas, pods, now, after, x, remaining, remaining')
    ensures Cleaned(cluster, replicas, pods, before, after, rest - {x})
  {
  }

  /** What becomes of volume x. */
  method LookAt(w: World, cluster: string, replicas: nat, pods: set<nat>, x: string, remaining: set<nat>)
      returns (remaining': set<nat>, r: Outcome)
    requires x in w.volumes
    modifies w`volumes
    ensures r.Done? ==> LooksAt(cluster, replicas, pods, old(w.volumes), w.volumes, x, remaining, remaining')
    ensures !r.Done? ==> VolumeOrdinal(cluster, x).Some? && remaining' == remaining + {VolumeOrdinal(cluster, x).value}
    ensures w.volumes == old(w.volumes) || Obsolete(cluster, x, replicas, pods)
    ensures forall y :: y != x ==>
          (y in w.volumes <==> y in old(w.volumes)) && (y in w.volumes ==> w.volumes[y] == old(w.volumes)[y])
    ensures w.reliable ==> r.Done?
  {
    remaining', r := remaining, Done;
    var n := VolumeOrdinal(cluster, x);
    if n.Some? {
      OrdinalNames(x, VolumePrefix(cluster), n.value);
    }
    if n.None? || (w.volumes[x] && n.value != 0) {
      return;
    }
    if n.value == 0 || n.value < replicas || n.value in pods {
      remaining' := remaining + {n.value};
      return;
    }
    r := w.DeleteVolume(x);
    if !r.Done? {
      remaining' := remaining + {n.value};
    }
  }

  /** Deletes exactly the obsolete volumes; remaining are the ordinals of those that are left. */
  method CleanupStandbyVolumes(w: World, cluster: string, replicas: nat, pods: set<nat>)
      returns (remaining: set<nat>, r: Outcome)
    modifies w`volumes
    ensures OnlyObsoleteDeleted(cluster, replicas, pods, old(w.volumes), w.volumes)
    ensures r.Done? ==> forall n :: Remains(cluster, w.volumes, {}, remaining, n)
    ensures r.Done? ==> forall x :: Obsolete(cluster, x, replicas, pods) ==> !Stays(w.volumes, x)
    ensures w.reliable ==> r.Done?
  {
    remaining := {};
    var rest;
    rest, r := w.ListVolumes();
    if !r.Done? {
      return;
    }
    while rest != {}
      invariant Cleaned(cluster, replicas, pods, old(w.volumes), w.volumes, rest)
      invariant forall n :: Remains(cluster, w.volumes, rest, remaining, n)
      decreases rest
    {
      var x :| x in rest;
      ghost var now, before := w.volumes, remaining;
      remaining, r := LookAt(w, cluster, replicas, pods, x, remaining);
      if !r.Done? {
        return;
      }
      CleanedNext(cluster, replicas, pods, old(w.volumes), now, w.volumes, rest, x, before, remaining);
      forall n ensures Remains(cluster, w.volumes, rest - {x}, remaining, n) {
        RemainsNext(cluster, replicas, pods, now, w.volumes, rest, x, before, remaining, n);
      }
      rest := rest - {x};
    }
    r := Done;
  }

  // ---------- slots ----------

  /** pgop drops this slot: of a standby that was scaled away (if drops are allowed and its volume is not
      kept), or one that was invalidated; never one in use, and never another's. */
  ghost predicate Drops(name: string, s: Slot, want: nat, kept: set<nat>, allowDrops: bool) {
    var n := SlotOrdinal(name);
    && n.Some? && s.physical && n.value != 0 && !s.active
    && (if n.value >= want then allowDrops && n.value !in kept else s.lost)
  }

  /** The name of the slot of a wanted standby that has a pod. */
  ghost predicate Wanted(name: string, want: nat, pods: set<nat>) {
    exists i :: 1 <= i < want && i in pods && name == SlotName(i)
  }

  ghost predicate SameSlot(a: map<string, Slot>, b: map<string, Slot>, name: string) {
    (name in a <==> name in b) && (name in a ==> a[name] == b[name])
  }

  /** What may have become of the slot name. */
  ghost predicate SlotChange(name: string, before: map<string, Slot>, after: map<string, Slot>, want: nat,
                             pods: set<nat>,
                             kept: set<nat>, allowDrops: bool) {
    || SameSlot(before, after, name)
    || (name in before && Drops(name, before[name], want, kept, allowDrops) && name !in after)
    || ((name in before ==> Drops(name, before[name], want, kept, allowDrops)) && Wanted(name, want, pods)
        && name in after && after[name] == NEW_SLOT)
  }

  /** What has become of it when nothing failed. */
  ghost predicate SlotDone(name: string, before: map<string, Slot>, after: map<string, Slot>, want: nat, pods: set<nat>,
                           kept: set<nat>, allowDrops: bool) {
    if name in before && !Drops(name, before[name], want, kept, allowDrops) then SameSlot(before, after, name)
    else if Wanted(name, want, pods) then name in after && after[name] == NEW_SLOT
    else name !in after
  }

  ghost predicate SlotChanges(before: map<string, Slot>, after: map<string, Slot>, want: nat, pods: set<nat>,
                              kept: set<nat>, allowDrops: bool) {
    forall x :: SlotChange(x, before, after, want, pods, kept, allowDrops)
  }

  ghost predicate SlotsDone(before: map<string, Slot>, after: map<string, Slot>, want: nat, pods: set<nat>,
                            kept: set<nat>, allowDrops: bool) {
    forall x :: SlotDone(x, before, after, want, pods, kept, allowDrops)
  }

  /** The slots that are not in rest have been dropped or left. */
  ghost predicate Trimmed(before: map<string, Slot>, now: map<string, Slot>, rest: set<string>, want: nat,
                          kept: set<nat>, allowDrops: bool) {
    forall x :: if x in before && x !in rest && Drops(x, before[x], want, kept, allowDrops)
          then x !in now else SameSlot(before, now, x)
  }

  /** Of those, recreated are exactly the ordinals of standbys that are still wanted. */
  ghost predicate Recreates(before: map<string, Slot>, rest: set<string>, want: nat, kept: set<nat>, allowDrops: bool,
                            recreated: set<nat>) {
    forall n: nat :: n in recreated <==>
      n < want && SlotName(n) in before && SlotName(n) !in rest
      && Drops(SlotName(n), before[SlotName(n)], want, kept, allowDrops)
  }

  lemma RecreatesNext(before: map<string, Slot>, rest: set<string>, want: nat, kept: set<nat>, allowDrops: bool,
                      recreated: set<nat>, recreated': set<nat>, x: string)
    requires x in rest && x in before && Recreates(before, rest, want, kept, allowDrops, recreated)
    requires recreated' == if Drops(x, before[x], want, kept, allowDrops) && SlotOrdinal(x).value < want
                then recreated + {SlotOrdinal(x).value} else recreated
    ensures Recreates(before, rest - {x}, want, kept, allowDrops, recreated')
  {
    if SlotOrdinal(x).Some? {
      OrdinalNames(x, SLOT_PREFIX, SlotOrdinal(x).value);
    }
    forall n: nat ensures SlotName(n) == x ==> SlotOrdinal(x) == if n < INT64_LIMIT then Some(n) else None {
      SlotOrdinalOf(n);
    }
  }

  lemma TrimmedNext(before: map<string, Slot>, now: map<string, Slot>, after: map<string, Slot>, rest: set<string>,
                    x: string,
                    want: nat, kept: set<nat>, allowDrops: bool)
    requires x in rest && x in before && Trimmed(before, now, rest, want, kept, allowDrops)
    requires after == if Drops(x, before[x], want, kept, allowDrops) then now - {x} else now
    ensures Trimmed(before, after, rest - {x}, want, kept, allowDrops)
  {
  }

  method TrimSlot(w: World, x: string, want: nat, kept: set<nat>, allowDrops: bool) returns (dropped: bool, r: Outcome)
    requires x in w.slots
    modifies w`slots
    ensures dropped <==> Drops(x, old(w.slots)[x], want, kept, allowDrops)
    ensures w.slots == old(w.slots) || (dropped && w.slots == old(w.slots) - {x})
    ensures r.Done? && dropped ==> w.slots == old(w.slots) - {x}
    ensures w.reliable ==> r.Done?
  {
    dropped, r := false, Done;
    var n, slot := SlotOrdinal(x), w.slots[x];
    if n.Some? && slot.physical && n.value != 0 && !slot.active
       && (if n.value >= want then allowDrops && n.value !in kept else slot.lost) {
      dropped := true;
      r := w.DropSlot(x);
    }
  }

  method TrimSlots(w: World, want: nat, kept: set<nat>, allowDrops: bool)
      returns (existing: set<string>, recreated: set<nat>, r: Outcome)
    modifies w`slots
    ensures forall x :: SameSlot(old(w.slots), w.slots, x)
                        || (x in old(w.slots) && Drops(x, old(w.slots)[x], want, kept, allowDrops) && x !in w.slots)
    ensures r.Done? ==> Trimmed(old(w.slots), w.slots, {}, want, kept, allowDrops) && existing == w.slots.Keys
    ensures r.Done? ==> Recreates(old(w.slots), {}, want, kept, allowDrops, recreated)
    ensures w.reliable ==> r.Done?
  {
    existing, recreated := {}, {};
    var rest;
    rest, r := w.ListSlots();
    if !r.Done? {
      return;
    }
    while rest != {}
      invariant rest <= w.slots.Keys && existing == w.slots.Keys - rest && w.slots.Keys <= old(w.slots.Keys)
      invariant Trimmed(old(w.slots), w.slots, rest, want, kept, allowDrops)
      invariant Recreates(old(w.slots), rest, want, kept, allowDrops, recreated)
      decreases rest
    {
      var x :| x in rest;
      ghost var now, before := w.slots, recreated;
      assert SameSlot(old(w.slots), now, x);
      var dropped;
      dropped, r := TrimSlot(w, x, want, kept, allowDrops);
      if !r.Done? {
        return;
      }
      if !dropped {
        existing := existing + {x};
      } else if SlotOrdinal(x).value < want {
        recreated := recreated + {SlotOrdinal(x).value};
      }
      RecreatesNext(old(w.slots), rest, want, kept, allowDrops, before, recreated, x);
      TrimmedNext(old(w.slots), now, w.slots, rest, x, want, kept, allowDrops);
      rest := rest - {x};
    }
    r := Done;
  }

  lemma WantedNext(x: string, i: nat, pods: set<nat>)
    requires i >= 1
    ensures Wanted(x, i + 1, pods) <==> Wanted(x, i, pods) || (i in pods && x == SlotName(i))
  {
  }

  lemma SlotNamesDiffer(m: nat, n: nat)
    requires SlotName(m) == SlotName(n)
    ensures m == n
  {
    assert SlotName(n)[|SLOT_PREFIX|..] == PrintNat(n) && SlotName(m)[|SLOT_PREFIX|..] == PrintNat(m);
  }

  lemma NotWantedYet(i: nat, pods: set<nat>)
    ensures !Wanted(SlotName(i), i, pods)
  {
    if Wanted(SlotName(i), i, pods) {
      var j :| 1 <= j < i && j in pods && SlotName(i) == SlotName(j);
      SlotNamesDiffer(i, j);
    }
  }

  /** The slots of the wanted standbys below i are there; the others are as they were. */
  ghost predicate Created(before: map<string, Slot>, now: map<string, Slot>, x: string, i: nat, pods: set<nat>) {
    if x in before || !Wanted(x, i, pods) then SameSlot(before, now, x) else x in now && now[x] == NEW_SLOT
  }

  /** As Created, but there may be slots missing. */
  ghost predicate MayCreate(before: map<string, Slot>, now: map<string, Slot>, x: string, i: nat, pods: set<nat>) {
    SameSlot(before, now, x) || (x !in before && Wanted(x, i, pods) && x in now && now[x] == NEW_SLOT)
  }

  method CreateSlots(w: World, want: nat, pods: set<nat>, existing: set<string>) returns (r: Outcome)
    requires want >= 1 && existing == w.slots.Keys
    modifies w`slots
    ensures forall x :: MayCreate(old(w.slots), w.slots, x, want, pods)
    ensures r.Done? ==> forall x :: Created(old(w.slots), w.slots, x, want, pods)
    ensures w.reliable ==> r.Done?
  {
    for i := 1 to want
      invariant forall x :: Created(old(w.slots), w.slots, x, i, pods)
    {
      ghost var now := w.slots;
      var name := SlotName(i);
      if name !in existing && i in pods {
        NotWantedYet(i, pods);
        assert Created(old(w.slots), now, name, i, pods);
        r := w.CreateSlot(name);
        if !r.Done? {
          forall x ensures MayCreate(old(w.slots), w.slots, x, want, pods) {
            assert Created(old(w.slots), now, x, i, pods);
            WantedNext(x, i, pods);
          }
          return;
        }
      }
      ghost var next := i + 1;
      forall x ensures Created(old(w.slots), w.slots, x, next, pods) {
        assert Created(old(w.slots), now, x, i, pods);
        WantedNext(x, i, pods);
      }
    }
    forall x ensures MayCreate(old(w.slots), w.slots, x, want, pods) {
      assert Created(old(w.slots), w.slots, x, want, pods);
    }
    r := Done;
  }

  method ReconcileSlots(w: World, want: nat, pods: set<nat>, kept: set<nat>, allowDrops: bool)
      returns (recreated: set<nat>, r: Outcome)
    requires want >= 1
    modifies w`slots
    ensures SlotChanges(old(w.slots), w.slots, want, pods, kept, allowDrops)
    ensures r.Done? ==> SlotsDone(old(w.slots), w.slots, want, pods, kept, allowDrops)
    ensures w.reliable ==> r.Done?
  {
    var existing;
    existing, recreated, r := TrimSlots(w, want, kept, allowDrops);
    ghost var trimmed := w.slots;
    if r.Done? {
      r := CreateSlots(w, want, pods, existing);
      forall x ensures SlotChange(x, old(w.slots), w.slots, want, pods, kept, allowDrops) {
        assert MayCreate(trimmed, w.slots, x, want, pods);
      }
      if r.Done? {
        forall x ensures SlotDone(x, old(w.slots), w.slots, want, pods, kept, allowDrops) {
          assert Created(trimmed, w.slots, x, want, pods);
        }
      }
    }
  }

  // ---------- volumes first, then slots ----------

  /** The slot belongs to a standby (n) and was not invalidated. */
  ghost predicate HealthySlotOf(slots: map<string, Slot>, n: nat) {
    SlotName(n) in slots && slots[SlotName(n)].physical && !slots[SlotName(n)].lost
  }

  lemma SlotOrdinalOf(n: nat)
    ensures SlotOrdinal(SlotName(n)) == if n < INT64_LIMIT then Some(n) else None
  {
    OrdinalNames(SlotName(n), SLOT_PREFIX, n);
    if SlotOrdinal(SlotName(n)).Some? {
      var m := SlotOrdinal(SlotName(n)).value;
      OrdinalNames(SlotName(n), SLOT_PREFIX, m);
      SlotNamesDiffer(m, n);
    }
  }

  /** The part of a Cluster's reconcile that manages volumes and slots: slots are dropped only after a
      cleanup without errors. replicas is the larger of want and the StatefulSet's replicas; ready says
      whether the primary can be reached. */
  method ReconcileReplication(w: World, cluster: string, want: nat, replicas: nat, pods: set<nat>, ready: bool)
      returns (remaining: set<nat>, clean: bool)
    requires 1 <= want <= replicas
    modifies w`volumes, w`slots
    // the primary's volume and other Clusters' stay
    ensures OnlyObsoleteDeleted(cluster, replicas, pods, old(w.volumes), w.volumes)
    ensures SameVolume(old(w.volumes), w.volumes, "data-" + cluster + "-0")
    // slots in use, logical ones and other owners' stay
    ensures forall x <- old(w.slots) :: old(w.slots)[x].active || !old(w.slots)[x].physical || SlotOrdinal(x).None? ==>
              SameSlot(old(w.slots), w.slots, x)
    // the slot of a standby whose volume is left stays, unless it was invalidated
    ensures forall n :: Kept(cluster, w.volumes, n) && old(HealthySlotOf(w.slots, n)) ==>
            SameSlot(old(w.slots), w.slots, SlotName(n))
    // every wanted standby with a pod has a slot
    ensures clean ==> forall n :: 1 <= n < want && n in pods ==> SlotName(n) in w.slots
    // the volumes of standbys that were scaled away and whose pods are gone go
    ensures clean ==> forall n :: replicas <= n < INT64_LIMIT && n !in pods ==>
                  !Stays(w.volumes, "data-" + cluster + "-" + PrintNat(n))
    // and so do their slots, once their volumes are gone; an invalidated one is made anew
    ensures clean ==> forall n :: 1 <= n < INT64_LIMIT ==>
                  Settled("pgop_replica_" + PrintNat(n), n, old(w.slots), w.slots, want, pods,
                          Kept(cluster, w.volumes, n))
    ensures !ready ==> w.slots == old(w.slots) && !clean
    ensures w.reliable && ready ==> clean
  {
    var r;
    ghost var slots := w.slots;
    remaining, r := CleanupStandbyVolumes(w, cluster, replicas, pods);
    PrimaryVolumeStays(cluster, replicas, pods, old(w.volumes), w.volumes);
    if r.Done? {
      ObsoleteVolumesGo(cluster, replicas, pods, w.volumes);
    }
    clean := r.Done? && ready;
    if ready {
      var recreated, s := ReconcileSlots(w, want, pods, remaining, r.Done?);
      clean := clean && s.Done?;
      OthersSlotsStay(slots, w.slots, want, pods, remaining, r.Done?);
      StandbySlotsStay(cluster, w.volumes, slots, w.slots, want, pods, remaining, r.Done?);
      if clean {
        WantedSlotsAreThere(slots, w.slots, want, pods, remaining, r.Done?);
        SlotsAreSettled(cluster, w.volumes, slots, w.slots, want, pods, remaining);
      }
    }
  }

  /** What is to become of the slot of standby n, when it is not in use. */
  ghost predicate Settled(name: string, n: nat, before: map<string, Slot>, after: map<string, Slot>, want: nat,
                          pods: set<nat>, volumeKept: bool) {
    && (name in before && before[name].physical && !before[name].active ==>
          && (n >= want && !volumeKept ==> name !in after)
          && (n >= want && volumeKept ==> name in after && after[name] == before[name])
          && (n < want && before[name].lost ==> name in after ==> after[name] == NEW_SLOT)
          && (n < want && before[name].lost && n !in pods ==> name !in after)
          && (n < want && !before[name].lost ==> name in after && after[name] == before[name]))
    && (name !in before ==> (name in after <==> n < want && n in pods))
    && (name !in before && name in after ==> after[name] == NEW_SLOT)
  }

  lemma SlotsAreSettled(cluster: string, volumes: map<string, bool>, before: map<string, Slot>,
                        after: map<string, Slot>, want: nat, pods: set<nat>, kept: set<nat>)
    requires SlotsDone(before, after, want, pods, kept, true)
    requires forall n :: Remains(cluster, volumes, {}, kept, n)
    ensures forall n :: 1 <= n < INT64_LIMIT ==>
            Settled("pgop_replica_" + PrintNat(n), n, before, after, want, pods, Kept(cluster, volumes, n))
  {
    forall n | 1 <= n < INT64_LIMIT
      ensures Settled("pgop_replica_" + PrintNat(n), n, before, after, want, pods, Kept(cluster, volumes, n)) {
      var name := "pgop_replica_" + PrintNat(n);
      assert name == SlotName(n);
      SlotOrdinalOf(n);
      assert SlotDone(name, before, after, want, pods, kept, true) && Remains(cluster, volumes, {}, kept, n);
      if Wanted(name, want, pods) {
        var i :| 1 <= i < want && i in pods && name == SlotName(i);
        SlotNamesDiffer(i, n);
      }
    }
  }

  lemma ObsoleteVolumesGo(cluster: string, replicas: nat, pods: set<nat>, volumes: map<string, bool>)
    requires forall x :: Obsolete(cluster, x, replicas, pods) ==> !Stays(volumes, x)
    requires replicas >= 1
    ensures forall n :: replicas <= n < INT64_LIMIT && n !in pods ==>
            !Stays(volumes, "data-" + cluster + "-" + PrintNat(n))
  {
    forall n | replicas <= n < INT64_LIMIT && n !in pods
      ensures !Stays(volumes, "data-" + cluster + "-" + PrintNat(n)) {
      var x := "data-" + cluster + "-" + PrintNat(n);
      assert x == VolumePrefix(cluster) + PrintNat(n);
      OrdinalNames(x, VolumePrefix(cluster), n);
      assert Obsolete(cluster, x, replicas, pods);
    }
  }

  lemma OthersSlotsStay(before: map<string, Slot>, after: map<string, Slot>, want: nat, pods: set<nat>, kept: set<nat>,
                        allowDrops: bool)
    requires SlotChanges(before, after, want, pods, kept, allowDrops)
    ensures forall x <- before :: before[x].active || !before[x].physical || SlotOrdinal(x).None? ==>
            SameSlot(before, after, x)
  {
    forall x <- before | before[x].active || !before[x].physical || SlotOrdinal(x).None?
      ensures SameSlot(before, after, x) {
      assert SlotChange(x, before, after, want, pods, kept, allowDrops);
    }
  }

  lemma StandbySlotsStay(cluster: string, volumes: map<string, bool>, before: map<string, Slot>,
                         after: map<string, Slot>,
                         want: nat, pods: set<nat>, kept: set<nat>, allowDrops: bool)
    requires SlotChanges(before, after, want, pods, kept, allowDrops)
    requires allowDrops ==> forall n :: Remains(cluster, volumes, {}, kept, n)
    ensures forall n :: Kept(cluster, volumes, n) && HealthySlotOf(before, n) ==> SameSlot(before, after, SlotName(n))
  {
    forall n | Kept(cluster, volumes, n) && HealthySlotOf(before, n) ensures SameSlot(before, after, SlotName(n)) {
      assert SlotChange(SlotName(n), before, after, want, pods, kept, allowDrops);
      SlotOrdinalOf(n);
      assert allowDrops ==> Remains(cluster, volumes, {}, kept, n);
    }
  }

  lemma WantedSlotsAreThere(before: map<string, Slot>, after: map<string, Slot>, want: nat, pods: set<nat>,
                            kept: set<nat>, allowDrops: bool)
    requires SlotsDone(before, after, want, pods, kept, allowDrops)
    ensures forall n :: 1 <= n < want && n in pods ==> SlotName(n) in after
  {
    forall n | 1 <= n < want && n in pods ensures SlotName(n) in after {
      assert Wanted(SlotName(n), want, pods);
      assert SlotDone(SlotName(n), before, after, want, pods, kept, allowDrops);
    }
  }

  ghost predicate SameVolume(a: map<string, bool>, b: map<string, bool>, name: string) {
    (name in a <==> name in b) && (name in a ==> a[name] == b[name])
  }

  lemma PrimaryVolumeStays(cluster: string, replicas: nat, pods: set<nat>, before: map<string, bool>,
                           after: map<string, bool>)
    requires OnlyObsoleteDeleted(cluster, replicas, pods, before, after)
    ensures SameVolume(before, after, "data-" + cluster + "-0")
  {
    assert PrintNat(0) == "0" && VolumePrefix(cluster) + "0" == "data-" + cluster + "-0";
    OrdinalNames(VolumePrefix(cluster) + "0", VolumePrefix(cluster), 0);
  }
}
