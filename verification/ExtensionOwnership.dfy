/** The record of the extensions pgop created, by oid and owner, and the drops it allows. Others may drop,
    create and reassign extensions before every statement, calls may fail (applied or not), and the
    operator may crash at any of them. */
module ExtensionOwnership {
  import opened Option
  import ExtensionPlan

  /** An installed extension. No oid is ever used twice. */
  datatype Installation = Installation(oid: nat, owner: string)

  type Installations = map<string, Installation>

  /** An entry of status.extensions. */
  datatype Entry = Entry(created: bool, dropOnRemoval: bool, oid: nat, owner: string)

  const NO_ENTRY := Entry(false, false, 0, "")

  datatype Outcome = Done | Exists | Refused | Failed | Crashed

  /** The most entries of status.extensions. */
  const STATUS_LIMIT := 128

  /** What others do at some moment: the installations they leave, and a bound of the oids by then. */
  datatype Deed = Deed(installed: Installations, next: nat)

  /** What others do, given what is installed and the bound of the oids. */
  type Actor = (Installations, nat) -> Deed

  const NOBODY: Actor := (installed: Installations, next: nat) => Deed(installed, next)

  /** Drops the extension and creates another one under its name. */
  function Replacer(name: string, owner: string): Actor {
    (installed: Installations, next: nat) => Deed(installed[name := Installation(next, owner)], next + 1)
  }

  /** Drops the extension. */
  function Dropper(name: string): Actor {
    (installed: Installations, next: nat) => Deed(installed - {name}, next)
  }

  /** They keep installations (perhaps with another owner), drop them, create new ones. */
  predicate OthersMay(before: Installations, after: Installations, next: nat, next': nat) {
    && next <= next'
    && forall n <- after ::
          0 < after[n].oid < next' && (after[n].oid >= next || (n in before && after[n].oid == before[n].oid))
  }

  /** A DROP EXTENSION: the entry it was issued for, what the lookup before it saw, and what it hit. */
  datatype Hit = Hit(name: string, entry: Entry, looked: Installation, hit: Installation)

  /** A CREATE EXTENSION: the extensions installed when it was planned, and when it ran. */
  datatype Creation = Creation(wish: ExtensionPlan.Wish, policy: set<string>, planned: set<string>, actual: set<string>)

  /** The server can carry out the installation: all that is required is installed, or CASCADE may
      install it. */
  ghost predicate Possible(s: ExtensionPlan.Server, x: ExtensionPlan.Wish) {
    var info := ExtensionPlan.Version(s, x.name, x.version);
    && info.Some?
    && forall n ::
          ExtensionPlan.Needs(s, info.value, n) && n !in s.installed ==> x.cascade && ExtensionPlan.Installable(s, n)
  }

  /** CASCADE installs n, too. */
  ghost predicate Brings(s: ExtensionPlan.Server, x: ExtensionPlan.Wish, n: string) {
    var info := ExtensionPlan.Version(s, x.name, x.version);
    x.cascade && info.Some? && ExtensionPlan.Needs(s, info.value, n) && n !in s.installed
  }

  /** A creation keeps all installations, and adds the extension itself and what it brings. */
  ghost predicate Brought(catalog: ExtensionPlan.Server, x: ExtensionPlan.Wish, before: Installations,
                          after: Installations) {
    var s := catalog.(installed := before.Keys);
    && (forall n <- before :: n in after && after[n] == before[n])
    && (forall n :: n in after && n !in before <==> n !in before && (n == x.name || Brings(s, x, n)))
  }

  function Names(infos: seq<ExtensionPlan.Info>): (names: seq<string>)
    ensures forall n :: n in names <==> exists d <- infos :: d.name == n
  {
    if infos == [] then [] else [infos[0].name] + Names(infos[1..])
  }

  /** What the server would install besides the extension, and whether it can install all. */
  method Needed(s: ExtensionPlan.Server, x: ExtensionPlan.Wish) returns (names: seq<string>, possible: bool)
    requires ExtensionPlan.Valid(s)
    ensures possible <==> Possible(s, x)
    ensures possible ==> forall n :: n in names <==> Brings(s, x, n)
  {
    var info := ExtensionPlan.Version(s, x.name, x.version);
    if info.None? {
      return [], false;
    }
    var installed, toInstall, unavailable, ok := ExtensionPlan.Dependencies(s, true, info.value);
    possible := unavailable == [] && (toInstall == [] || x.cascade);
    names := Names(toInstall);
    NeededMeans(s, x, info.value, installed, toInstall, unavailable);
  }

  lemma NeededMeans(s: ExtensionPlan.Server, x: ExtensionPlan.Wish, info: ExtensionPlan.Info, installed: seq<string>,
                    toInstall: seq<ExtensionPlan.Info>, unavailable: seq<string>)
    requires ExtensionPlan.Valid(s) && ExtensionPlan.Version(s, x.name, x.version) == Some(info)
    requires ExtensionPlan.Resolved(s, info, installed, toInstall, unavailable)
    ensures unavailable == [] && (toInstall == [] || x.cascade) <==> Possible(s, x)
    ensures Possible(s, x) ==> forall n :: (exists d <- toInstall :: d.name == n) <==> Brings(s, x, n)
  {
    forall n
      ensures (exists d <- toInstall ::
            d.name == n) <==> ExtensionPlan.Needs(s, info, n) && ExtensionPlan.Installable(s, n) {
      ExtensionPlan.NeededIsPlanned(s, info, installed, toInstall, unavailable, n);
    }
    assert unavailable == [] || unavailable[0] in unavailable;
    assert toInstall == [] || toInstall[0] in toInstall;
    if !Possible(s, x) {
      var n :| ExtensionPlan.Needs(s, info, n) && n !in s.installed && !(x.cascade && ExtensionPlan.Installable(s, n));
      if !ExtensionPlan.Installable(s, n) {
        assert n in unavailable;
      }
    }
  }

  class World {
    var installed: Installations
    var status: map<string, Entry>
    /** All oids so far are below it. */
    var next: nat
    /** The server's extensions, versions and update paths. */
    const catalog: ExtensionPlan.Server
    /** The installations that pgop's own CREATE EXTENSION made: their names by oid. */
    ghost var made: map<nat, string>
    /** The oids that a lookup right after a creation saw although the creation made another. */
    ghost var misread: set<nat>
    ghost var hits: seq<Hit>
    ghost var creations: seq<Creation>
    /** Nobody else does anything. */
    const alone: bool
    /** Every call succeeds that can be carried out. */
    const reliable: bool

    /** pgop made this installation. */
    ghost predicate Made(name: string, oid: nat)
      reads this`made
    {
      oid in made && made[oid] == name
    }

    /** The entry claims an installation that pgop made under this name, or one that it misread. */
    ghost predicate EntryOk(name: string, e: Entry)
      reads this`made, this`misread
    {
      e.created && e.oid != 0 ==> Made(name, e.oid) || e.oid in misread
    }

    ghost predicate EntriesOk(m: map<string, Entry>)
      reads this`made, this`misread
    {
      forall n <- m :: EntryOk(n, m[n])
    }

    /** The drop hit an installation that pgop made, with the owner in the entry. */
    ghost predicate Own(h: Hit)
      reads this`made
    {
      Made(h.name, h.hit.oid) && h.hit.owner == h.entry.owner
    }

    /** It was issued for a created and confirmed entry, to be dropped, whose oid and owner the lookup saw.
        It hit pgop's own if and only if it hit what the entry names, and that had not been misread. */
    ghost predicate HitOk(h: Hit)
      reads this`made, this`misread
    {
      && h.entry.created && h.entry.dropOnRemoval && h.entry.oid != 0
      && h.looked.oid == h.entry.oid && h.looked.owner == h.entry.owner
      && (Own(h) <==>
            h.hit.oid == h.entry.oid && h.hit.owner == h.entry.owner && h.entry.oid !in misread)
    }

    ghost predicate OidsOk()
      reads this`installed, this`next, this`made, this`misread, this`hits
    {
      && next > 0
      && (forall n <- installed :: 0 < installed[n].oid < next) && (forall o <- made :: 0 < o < next)
      && (forall o <- misread :: 0 < o < next && o !in made)
      && (forall h <- hits :: h.hit.oid < next && h.looked.oid < next)
    }

    /** Whatever a creation was planned on, the policy allowed it. */
    ghost predicate PlannedWell()
      reads this`creations
    {
      forall c <- creations :: ExtensionPlan.Installs(catalog.(installed := c.planned), c.policy, c.wish)
    }

    ghost predicate Inv()
      reads this`installed, this`status, this`next, this`made, this`misread, this`hits, this`creations
    {
      && ExtensionPlan.Valid(catalog) && OidsOk() && EntriesOk(status)
      && (forall h <- hits :: HitOk(h)) && PlannedWell()
    }

    constructor (start: Installations, server: ExtensionPlan.Server, single: bool, sure: bool, bound: nat)
      requires bound > 0 && (forall n <- start :: 0 < start[n].oid < bound) && ExtensionPlan.Valid(server)
      ensures Inv() && installed == start && status == map[] && hits == [] && creations == [] && made == map[]
      ensures catalog == server && alone == single && reliable == sure && next == bound && misread == {}
    {
      installed, status, next, catalog := start, map[], bound, server;
      made, misread, hits, creations := map[], {}, [], [];
      alone, reliable := single, sure;
    }

    /** The server as the planner sees it. */
    function Server(): ExtensionPlan.Server
      reads this`installed
    {
      catalog.(installed := installed.Keys)
    }

    /** What is installed once others have done what they can of o. */
    function After(o: Actor): Installations
      reads this`installed, this`next
    {
      var d := o(installed, next);
      if !alone && OthersMay(installed, d.installed, next, d.next) then d.installed else installed
    }

    method Others(o: Actor)
      requires Inv()
      modifies this`installed, this`next
      ensures Inv() && installed == old(After(o)) && OthersMay(old(installed), installed, old(next), next)
      ensures o == NOBODY ==> installed == old(installed) && next == old(next)
    {
      var d := o(installed, next);
      if !alone && OthersMay(installed, d.installed, next, d.next) {
        installed, next := d.installed, d.next;
      }
    }

    method Lookup(name: string, o: Actor) returns (i: Option<Installation>, ok: bool)
      requires Inv()
      modifies this`installed, this`next
      ensures Inv() && installed == old(After(o)) && OthersMay(old(installed), installed, old(next), next)
      ensures o == NOBODY ==> installed == old(installed) && next == old(next)
      ensures ok ==> i == if name in installed then Some(installed[name]) else None
      ensures !ok ==> i.None?
      ensures reliable ==> ok
    {
      Others(o);
      i, ok := None, *;
      ok := ok || reliable;
      if ok && name in installed {
        i := Some(installed[name]);
      }
    }

    method Save(m: map<string, Entry>) returns (r: Outcome)
      requires Inv() && EntriesOk(m)
      modifies this`status
      ensures Inv() && (status == m || status == old(status)) && (r.Done? ==> status == m) && (reliable ==> r.Done?)
    {
      r := *;
      if reliable {
        r := Done;
      }
      var applied: bool := *;
      if applied || r.Done? {
        status := m;
      }
    }

    /** Adds new installations, owned by the operator. */
    method Install(names: seq<string>, owner: string)
      requires Inv()
      modifies this`installed, this`next
      ensures Inv() && next >= old(next)
      ensures forall n <- old(installed) :: n !in names ==> n in installed && installed[n] == old(installed)[n]
      ensures forall n <- installed :: n in names || n in old(installed)
      ensures forall n <- names :: n in installed && installed[n].oid >= old(next)
    {
      for k := 0 to |names|
        invariant Inv() && next >= old(next)
        invariant forall n <- old(installed) :: n !in names ==> n in installed && installed[n] == old(installed)[n]
        invariant forall n <- installed :: n in names || n in old(installed)
        invariant forall j :: 0 <= j < k ==> names[j] in installed && installed[names[j]].oid >= old(next)
      {
        installed := installed[names[k] := Installation(next, owner)];
        next := next + 1;
      }
    }

    /** Carries out a creation. */
    method Carry(x: ExtensionPlan.Wish, ghost policy: set<string>, ghost planned: set<string>, needed: seq<string>,
                 operator: string)
      requires Inv() && ExtensionPlan.Installs(catalog.(installed := planned), policy, x) && x.name !in installed
      requires forall n <- needed :: n !in installed
      modifies this`installed, this`next, this`made, this`creations
      ensures Inv() && next >= old(next)
      ensures forall n <- old(made) :: n in made && made[n] == old(made)[n]
      ensures creations == old(creations) + [Creation(x, policy, planned, old(installed).Keys)]
      ensures (forall n <- old(installed) :: n in installed && installed[n] == old(installed)[n])
      ensures forall n :: n in installed <==> n in old(installed) || n == x.name || n in needed
      ensures Made(x.name, installed[x.name].oid) && installed[x.name].oid >= old(next)
    {
      ghost var before := installed;
      Install(needed + [x.name], operator);
      made := made[installed[x.name].oid := x.name];
      creations := creations + [Creation(x, policy, planned, before.Keys)];
    }

    /** CREATE EXTENSION: with CASCADE, what it requires is installed, too. */
    method Create(x: ExtensionPlan.Wish, ghost policy: set<string>, ghost planned: set<string>, o: Actor)
        returns (r: Outcome)
      requires Inv() && ExtensionPlan.Installs(catalog.(installed := planned), policy, x)
      modifies this`installed, this`next, this`made, this`creations
      ensures Inv() && next >= old(next) && (r.Exists? ==> x.name in installed)
      ensures forall n <- old(made) :: n in made && made[n] == old(made)[n]
      ensures (creations == old(creations) && installed == old(After(o)))
              || (creations == old(creations) + [Creation(x, policy, planned, old(After(o)).Keys)]
                  && Brought(catalog, x, old(After(o)), installed))
      ensures r.Done? ==> creations != old(creations) && x.name in installed
                          && Made(x.name, installed[x.name].oid) && installed[x.name].oid >= old(next)
      ensures reliable && x.name !in old(After(o)) && Possible(catalog.(installed := old(After(o)).Keys), x) ==> r.Done?
      ensures reliable && creations != old(creations) ==> r.Done?
    {
      Others(o);
      if x.name in installed {
        return Exists;
      }
      var needed, possible := Needed(catalog.(installed := installed.Keys), x);
      if !possible {
        return Failed;
      }
      r := *;
      if r.Exists? {
        r := Failed;
      }
      if reliable {
        r := Done;
      }
      var applied: bool, operator: string := *, *;
      if applied || r.Done? {
        Carry(x, policy, planned, needed, operator);
      }
    }

    /** The lookup after a creation saw this oid. */
    ghost method Observe(created: nat, read: nat)
      requires Inv() && created in made && 0 < read < next
      requires read != created ==> read !in made && forall h <- hits :: h.looked.oid != read
      modifies this`misread
      ensures Inv() && misread == if read == created then old(misread) else old(misread) + {read}
    {
      if read != created {
        misread := misread + {read};
      }
    }

    /** DROP EXTENSION name, which was looked up before. Without CASCADE the server refuses it while other
        objects depend on the extension. */
    method Drop(name: string, ghost e: Entry, depends: bool, o: Actor) returns (r: Outcome)
      requires Inv() && EntryOk(name, e) && e.created && e.dropOnRemoval && e.oid != 0
      requires name in installed && installed[name].oid == e.oid && installed[name].owner == e.owner
      modifies this`installed, this`next, this`hits
      ensures Inv()
      ensures installed == old(After(o)) || installed == old(After(o)) - {name}
      ensures hits == old(hits)
              || (name in old(After(o))
                  && hits == old(hits) + [Hit(name, e, old(installed[name]), old(After(o))[name])])
      ensures r.Done? ==> name in old(After(o)) && installed == old(After(o)) - {name}
                          && hits == old(hits) + [Hit(name, e, old(installed[name]), old(After(o))[name])]
      ensures depends ==> !r.Done? && installed == old(After(o)) && hits == old(hits)
      ensures reliable && name in old(After(o)) ==> r == if depends then Refused else Done
    {
      ghost var looked := installed[name];
      Others(o);
      r := *;
      var applied: bool := *;
      if name !in installed {
        return Failed;
      }
      if depends {
        return if reliable || !r.Crashed? then Refused else Crashed;
      }
      if reliable {
        r := Done;
      }
      if applied || r.Done? {
        hits := hits + [Hit(name, e, looked, installed[name])];
        installed := installed - {name};
      }
    }
  }

  // ---------- one extension ----------

  /** What the spec says of an extension. schemasFit: its schemas pass their check and can be created. */
  datatype Wish = Wish(plan: ExtensionPlan.Wish, dropOnRemoval: bool, schemasFit: bool)

  /** The entry claims the installation that is there. */
  ghost predicate Owns(e: Entry, installed: Installations, name: string) {
    && e.created && e.oid != 0
    && name in installed && installed[name].oid == e.oid && installed[name].owner == e.owner
  }

  lemma {:induction false} SubsetOfSize(keys: set<string>, size: nat) returns (some: set<string>)
    requires size <= |keys|
    ensures some <= keys && |some| == size
  {
    if size == 0 {
      some := {};
    } else {
      var n :| n in keys;
      some := SubsetOfSize(keys - {n}, size - 1);
      some := some + {n};
    }
  }

  /** The entries, or as many of them as there is room for. */
  method Fit(m: map<string, Entry>, room: nat) returns (kept: map<string, Entry>)
    ensures kept.Keys <= m.Keys && forall n <- kept :: kept[n] == m[n]
    ensures |m| <= room ==> kept == m
    ensures |m| > room ==> |kept| == room
  {
    kept := m;
    if |m| > room {
      ghost var any := SubsetOfSize(m.Keys, room);
      var some :| some <= m.Keys && |some| == room;
      kept := map n | n in m && n in some :: m[n];
      assert kept.Keys == some;
    }
  }

  /** What the spec no longer lists and is still to be dropped. */
  ghost predicate StillToDrop(cur: map<string, Entry>, listed: set<string>, n: string) {
    n in cur && n !in listed && cur[n].created && cur[n].dropOnRemoval
  }

  /** The entries to record before a creation: those of the spec, and as many of the removed ones still to
      be dropped as there is room for. */
  method Pending(cur: map<string, Entry>, listed: set<string>) returns (m: map<string, Entry>)
    ensures forall n <- m :: n in cur && m[n] == cur[n] && (n in listed || StillToDrop(cur, listed, n))
    ensures forall n <- cur :: n in listed ==> n in m
    ensures |cur| <= 128 ==> forall n <- cur :: StillToDrop(cur, listed, n) ==> n in m
    ensures |m| <= 128 || forall n <- m :: n in listed
  {
    var record := map n | n in cur && n in listed :: cur[n];
    var removed := map n | n in cur && n !in listed && cur[n].created && cur[n].dropOnRemoval :: cur[n];
    Smaller(record.Keys + removed.Keys, cur.Keys);
    assert |record| == |record.Keys| && |removed| == |removed.Keys| && |cur| == |cur.Keys|;
    assert |record.Keys + removed.Keys| == |record.Keys| + |removed.Keys|;
    removed := Fit(removed, if |record| < STATUS_LIMIT then STATUS_LIMIT - |record| else 0);
    m := record + removed;
    assert |m| == |m.Keys| && m.Keys == record.Keys + removed.Keys && |removed| == |removed.Keys|;
  }

  /** What the policy and the server allow now. */
  ghost predicate Allowed(w: World, policy: set<string>, x: Wish)
    reads w`installed
  {
    x.schemasFit && ExtensionPlan.Installs(w.Server(), policy, x.plan)
  }

  lemma AllowedIsPossible(w: World, policy: set<string>, x: Wish)
    requires Allowed(w, policy, x)
    ensures Possible(w.Server(), x.plan)
  {
  }

  /** Whenever o acts, there is a new installation under this name. */
  ghost predicate Replaces(o: Actor, name: string) {
    forall m: Installations, n: nat :: n > 0 && (forall k <- m :: 0 < m[k].oid < n) ==>
      OthersMay(m, o(m, n).installed, n, o(m, n).next) && name in o(m, n).installed && o(m, n).installed[name].oid >= n
  }

  /** CREATE EXTENSION and the lookup after it, with what others do before each. */
  method CreateAndConfirm(w: World, x: ExtensionPlan.Wish, drop: bool, ghost policy: set<string>,
                          ghost planned: set<string>,
                          o1: Actor, o2: Actor)
      returns (e: Entry, i: Option<Installation>, r: Outcome)
    requires w.Inv() && ExtensionPlan.Installs(w.catalog.(installed := planned), policy, x)
    modifies w`installed, w`next, w`made, w`misread, w`creations
    ensures w.Inv() && w.EntryOk(x.name, e) && e.dropOnRemoval == drop
    ensures forall n, f :: old(w.EntryOk(n, f)) ==> w.EntryOk(n, f)
    ensures w.creations == old(w.creations)
            || w.creations == old(w.creations) + [Creation(x, policy, planned, old(w.After(o1)).Keys)]
    ensures w.reliable && w.creations != old(w.creations) ==> r.Done?
    // a creation that failed leaves no claim; one that found the name taken looks at what is there
    ensures !r.Done? ==> e == Entry(false, drop, 0, "")
    ensures r.Exists? && w.reliable ==> i == if x.name in w.installed then Some(w.installed[x.name]) else None
    ensures w.alone ==> w.installed == old(w.installed) || Brought(w.catalog, x, old(w.installed), w.installed)
    ensures w.alone && i.Some? ==> x.name in w.installed && i.value == w.installed[x.name]
    ensures w.reliable && x.name !in old(w.After(o1)) && Possible(w.catalog.(installed := old(w.After(o1)).Keys), x) ==>
              r.Done? && e.created && w.creations != old(w.creations)
    ensures (w.alone || o2 == NOBODY) && r.Done? && w.reliable ==> Owns(e, w.installed, x.name)
    ensures r.Done? && w.reliable && !w.alone && Replaces(o2, x.name) ==>
              Owns(e, w.installed, x.name) && e.oid in w.misread
  {
    e, i := Entry(false, drop, 0, ""), None;
    r := w.Create(x, policy, planned, o1);
    if r.Crashed? {
      return;
    }
    var ok;
    if !r.Done? {
      if r.Exists? {
        i, ok := w.Lookup(x.name, o2);
      }
      return;
    }
    e, i := Confirm(w, x.name, drop, o2);
  }

  /** The lookup after a creation: the entry takes the oid and the owner that it sees. */
  method Confirm(w: World, name: string, drop: bool, o: Actor) returns (e: Entry, i: Option<Installation>)
    requires w.Inv() && name in w.installed && w.Made(name, w.installed[name].oid)
    modifies w`installed, w`next, w`misread
    ensures w.Inv() && w.EntryOk(name, e) && e.created && e.dropOnRemoval == drop && old(w.misread) <= w.misread
    ensures w.installed == old(w.After(o))
    ensures i.Some? ==> name in w.installed && i.value == w.installed[name] && Owns(e, w.installed, name)
    ensures w.reliable && (w.alone || o == NOBODY) ==> Owns(e, w.installed, name)
    ensures w.reliable && !w.alone && Replaces(o, name) ==> Owns(e, w.installed, name) && e.oid in w.misread
  {
    e := Entry(true, drop, 0, "");
    ghost var created := w.installed[name].oid;
    var ok;
    i, ok := w.Lookup(name, o);
    if i.Some? {
      e := e.(oid := i.value.oid, owner := i.value.owner);
      w.Observe(created, i.value.oid);
    }
  }

  ghost predicate Runs(w: World, policy: set<string>, x: Wish, o: Actor)
    reads w`installed, w`next
  {
    Allowed(w, policy, x) && x.plan.name !in w.After(o) && Possible(w.catalog.(installed := w.After(o).Keys), x.plan)
  }

  /** On record are the creation that is about to happen, not confirmed yet, and the other entries of the
      spec; and, with room for them, those of extensions still to be dropped. */
  ghost predicate Recorded(status: map<string, Entry>, x: Wish, cur: map<string, Entry>, listed: set<string>) {
    && x.plan.name in status && status[x.plan.name] == Entry(true, x.dropOnRemoval, 0, "")
    && (forall n <- cur :: n in listed && n != x.plan.name ==> n in status && status[n] == cur[n])
    && (|cur| < 128 ==> forall n <- cur :: StillToDrop(cur, listed, n) ==> n in status && status[n] == cur[n])
  }

  lemma PendingRecords(status: map<string, Entry>, x: Wish, cur: map<string, Entry>, listed: set<string>,
                       all: map<string, Entry>)
    requires all == cur[x.plan.name := Entry(true, x.dropOnRemoval, 0, "")] && x.plan.name in listed
    requires forall n <- status :: n in all && status[n] == all[n]
    requires forall n <- all :: n in listed ==> n in status
    requires |all| <= 128 ==> forall n <- all :: StillToDrop(all, listed, n) ==> n in status
    ensures Recorded(status, x, cur, listed)
  {
    assert all.Keys == cur.Keys + {x.plan.name};
    assert |all| == |all.Keys| && |cur| == |cur.Keys|;
    forall n <- cur | StillToDrop(cur, listed, n) ensures StillToDrop(all, listed, n) {
    }
  }

  method RecordCreation(w: World, x: Wish, cur: map<string, Entry>, listed: set<string>) returns (r: Outcome)
    requires w.Inv() && w.EntriesOk(cur) && x.plan.name in listed
    modifies w`status
    ensures w.Inv() && (r.Done? ==> Recorded(w.status, x, cur, listed)) && (w.reliable ==> r.Done?)
  {
    var all := cur[x.plan.name := Entry(true, x.dropOnRemoval, 0, "")];
    var record := Pending(all, listed);
    PendingRecords(record, x, cur, listed, all);
    r := w.Save(record);
  }

  /** Creates an extension that is not installed: planned and recorded before, confirmed by oid and owner
      after. */
  method CreateOne(w: World, x: Wish, policy: set<string>, cur: map<string, Entry>, listed: set<string>, o1: Actor,
                   o2: Actor)
      returns (e: Entry, i: Option<Installation>, r: Outcome)
    requires w.Inv() && w.EntriesOk(cur) && x.plan.name in listed
    modifies w`installed, w`next, w`made, w`misread, w`creations, w`status
    ensures w.Inv() && w.EntriesOk(cur) && w.EntryOk(x.plan.name, e) && e.dropOnRemoval == x.dropOnRemoval
    // nothing is created without a record of it in the status
    ensures w.creations == old(w.creations) || (OneMore(w, old(w.creations), x) && Recorded(w.status, x, cur, listed))
    ensures w.alone && w.reliable && w.creations != old(w.creations) ==> Owns(e, w.installed, x.plan.name)
    ensures !r.Done? ==> e == Entry(false, x.dropOnRemoval, 0, "")
    ensures w.alone ==> w.installed == old(w.installed) || Brought(w.catalog, x.plan, old(w.installed), w.installed)
    ensures w.alone && i.Some? ==> x.plan.name in w.installed && i.value == w.installed[x.plan.name]
    ensures !old(Allowed(w, policy, x)) ==>
              w.installed == old(w.installed) && !e.created && w.creations == old(w.creations)
    ensures w.alone && w.reliable && old(Allowed(w, policy, x)) && x.plan.name !in old(w.installed) ==>
              r.Done? && Owns(e, w.installed, x.plan.name)
    ensures w.alone && w.reliable && x.plan.name !in old(w.installed) ==> !r.Crashed?
    // undisturbed or not, an allowed creation runs if the server can carry it out by then
    ensures w.reliable && old(Runs(w, policy, x, o1)) ==>
              r.Done? && w.creations == old(w.creations) + [Creation(x.plan, policy, old(w.installed).Keys,
                                                                     old(w.After(o1)).Keys)]
    ensures w.reliable && old(Runs(w, policy, x, o1)) && o2 == NOBODY ==> Owns(e, w.installed, x.plan.name)
    ensures w.reliable && old(Runs(w, policy, x, o1)) && !w.alone && Replaces(o2, x.plan.name) ==>
              Owns(e, w.installed, x.plan.name) && e.oid in w.misread
  {
    e, i := Entry(false, x.dropOnRemoval, 0, ""), None;
    var plan := ExtensionPlan.PlanCreate(w.Server(), w.reliable, policy, x.plan);
    if !plan.Planned? || !x.schemasFit {
      return e, i, Failed;
    }
    AllowedIsPossible(w, policy, x);
    e, i, r := CreatePlanned(w, x, policy, cur, listed, o1, o2);
  }

  /** One creation more has run, of this extension. */
  ghost predicate OneMore(w: World, before: seq<Creation>, x: Wish)
    reads w`creations
  {
    |w.creations| == |before| + 1 && w.creations[..|before|] == before && w.creations[|before|].wish == x.plan
  }

  method CreatePlanned(w: World, x: Wish, ghost policy: set<string>, cur: map<string, Entry>, listed: set<string>,
                       o1: Actor, o2: Actor)
      returns (e: Entry, i: Option<Installation>, r: Outcome)
    requires w.Inv() && w.EntriesOk(cur) && x.plan.name in listed && Allowed(w, policy, x)
    modifies w`installed, w`next, w`made, w`misread, w`creations, w`status
    ensures w.Inv() && w.EntriesOk(cur) && w.EntryOk(x.plan.name, e) && e.dropOnRemoval == x.dropOnRemoval
    ensures w.creations == old(w.creations) || (OneMore(w, old(w.creations), x) && Recorded(w.status, x, cur, listed))
    ensures w.reliable && w.creations != old(w.creations) ==> r.Done?
    ensures !r.Done? ==> e == Entry(false, x.dropOnRemoval, 0, "")
    ensures w.alone ==> w.installed == old(w.installed) || Brought(w.catalog, x.plan, old(w.installed), w.installed)
    ensures w.alone && i.Some? ==> x.plan.name in w.installed && i.value == w.installed[x.plan.name]
    ensures w.reliable && x.plan.name !in old(w.After(o1))
            && Possible(w.catalog.(installed := old(w.After(o1)).Keys), x.plan) ==>
              r.Done? && w.creations == old(w.creations) + [Creation(x.plan, policy, old(w.installed).Keys,
                                                                     old(w.After(o1)).Keys)]
    ensures (w.alone || o2 == NOBODY) && r.Done? && w.reliable ==> Owns(e, w.installed, x.plan.name)
    ensures r.Done? && w.reliable && !w.alone && Replaces(o2, x.plan.name) ==>
              Owns(e, w.installed, x.plan.name) && e.oid in w.misread
  {
    e, i := Entry(false, x.dropOnRemoval, 0, ""), None;
    ghost var planned := w.installed.Keys;
    r := RecordCreation(w, x, cur, listed);
    if !r.Done? {
      return;
    }
    e, i, r := CreateAndConfirm(w, x.plan, x.dropOnRemoval, policy, planned, o1, o2);
  }

  /** One extension of the spec; afterwards its entry claims only an installation that is there. */
  method ReconcileOne(w: World, x: Wish, policy: set<string>, cur: map<string, Entry>, listed: set<string>)
      returns (e: Entry, r: Outcome)
    requires w.Inv() && w.EntriesOk(cur) && x.plan.name in listed
    modifies w`installed, w`next, w`made, w`misread, w`creations, w`status
    ensures w.Inv() && w.EntriesOk(cur) && w.EntryOk(x.plan.name, e) && e.dropOnRemoval == x.dropOnRemoval
    ensures w.alone ==> w.installed == old(w.installed)
                        || (x.plan.name !in old(w.installed)
                            && Brought(w.catalog, x.plan, old(w.installed), w.installed))
    // undisturbed, it owns what it owned, and what it has created
    ensures w.alone && w.reliable && x.plan.name in old(w.installed) ==>
              (e.created <==> x.plan.name in cur && Owns(cur[x.plan.name], old(w.installed), x.plan.name))
    ensures w.alone && w.reliable && x.plan.name !in old(w.installed) ==>
              (old(Allowed(w, policy, x)) <==> Owns(e, w.installed, x.plan.name))
              && (old(Allowed(w, policy, x)) <==> x.plan.name in w.installed)
    ensures w.creations == old(w.creations) || (OneMore(w, old(w.creations), x) && Recorded(w.status, x, cur, listed))
    ensures w.alone && w.reliable && w.creations != old(w.creations) ==> Owns(e, w.installed, x.plan.name)
    ensures w.alone && w.reliable && e.created ==> Owns(e, w.installed, x.plan.name)
    ensures w.alone && w.reliable ==> !r.Crashed?
  {
    var prev := if x.plan.name in cur then cur[x.plan.name] else NO_ENTRY;
    e := prev.(dropOnRemoval := x.dropOnRemoval);
    var o, o1, o2: Actor := *, *, *;
    var i, ok;
    i, ok := w.Lookup(x.plan.name, o);
    if !ok {
      return e, Failed;
    }
    r := Done;
    if i.None? {
      e, i, r := CreateOne(w, x, policy, cur, listed, o1, o2);
    }
    if i.Some? && e.created && (e.oid == 0 || e.oid != i.value.oid || e.owner != i.value.owner) {
      e := NO_ENTRY.(dropOnRemoval := e.dropOnRemoval);
    }
  }

  /** A removed extension with what others do before the lookup and before the drop: dropped if it is
      still the installation that the entry names and nothing else depends on it. keep: the entry stays. */
  method DropOne(w: World, n: string, e: Entry, depends: bool, o1: Actor, o2: Actor) returns (keep: bool, r: Outcome)
    requires w.Inv() && w.EntryOk(n, e)
    modifies w`installed, w`next, w`hits
    ensures w.Inv()
    ensures w.alone ==> w.installed == old(w.installed)
                        || (ToDrop(e, old(w.installed), n) && !depends && w.installed == old(w.installed) - {n})
    ensures w.alone && w.reliable ==> r.Done? && keep == (ToDrop(e, old(w.installed), n) && depends)
    ensures w.alone && w.reliable && ToDrop(e, old(w.installed), n) && !depends ==> n !in w.installed
    ensures w.reliable && o1 == NOBODY && ToDrop(e, old(w.installed), n) && n in old(w.After(o2)) && !depends ==>
              w.hits == old(w.hits) + [Hit(n, e, old(w.installed)[n], old(w.After(o2))[n])]
    // the entry goes only if its extension is dropped, or is not to be or not what the entry names
    ensures !keep && !r.Crashed? && e.dropOnRemoval && Owns(e, old(w.After(o1)), n) ==> w.hits != old(w.hits)
    // a drop is issued only for the installation that the entry names
    ensures w.hits == old(w.hits) || (e.created && e.dropOnRemoval && e.oid != 0 && n in old(w.After(o1))
                                      && old(w.After(o1))[n].oid == e.oid && old(w.After(o1))[n].owner == e.owner)
  {
    keep, r := false, Done;
    if !e.created || !e.dropOnRemoval {
      return;
    }
    var i, ok;
    i, ok := w.Lookup(n, o1);
    if !ok {
      return true, Done;
    }
    if i.None? || e.oid == 0 || i.value.oid != e.oid || i.value.owner != e.owner {
      return;
    }
    r := w.Drop(n, e, depends, o2);
    keep := !r.Done?;
    if !r.Crashed? {
      r := Done;
    }
  }

  /** The entry asks for the drop of the installation that is there. */
  ghost predicate ToDrop(e: Entry, installed: Installations, n: string) {
    e.dropOnRemoval && Owns(e, installed, n)
  }

  // ---------- passes ----------

  /** Left the spec, and is still the installation that pgop created and is to drop. */
  ghost predicate Due(cur: map<string, Entry>, listed: set<string>, installed: Installations, n: string) {
    n in cur && n !in listed && ToDrop(cur[n], installed, n)
  }

  lemma {:induction false} Smaller(a: set<string>, b: set<string>)
    requires a <= b
    ensures |a| <= |b|
  {
    if a != {} {
      var x :| x in a;
      Smaller(a - {x}, b - {x});
    }
  }

  /** As many of the entries as there is room for beside those of the spec; full: there is not enough. */
  method Truncate(keep: map<string, Entry>, listed: set<string>, cur: map<string, Entry>)
      returns (kept: map<string, Entry>, full: bool)
    requires keep.Keys <= cur.Keys
    ensures kept.Keys <= keep.Keys && forall n <- kept :: kept[n] == keep[n]
    ensures full <==> |keep| + |listed| > 128 && keep != map[]
    ensures full ==> |cur| + |listed| > 128
    ensures |kept| + |listed| <= 128 || kept == map[]
    ensures !full ==> kept == keep
  {
    var room := if |listed| < STATUS_LIMIT then STATUS_LIMIT - |listed| else 0;
    full := |keep| > room;
    Smaller(keep.Keys, cur.Keys);
    assert |keep| == |keep.Keys| && |cur| == |cur.Keys|;
    kept := Fit(keep, room);
  }

  /** Drops what left the spec, if it is still the installation that pgop created; returns the entries to
      keep. depends: whether other objects depend on an extension when its drop runs. */
  method DropRemoved(w: World, cur: map<string, Entry>, listed: set<string>, depends: string -> bool)
      returns (keep: map<string, Entry>, full: bool, r: Outcome)
    requires w.Inv() && w.EntriesOk(cur)
    modifies w`installed, w`next, w`hits
    ensures w.Inv() && w.EntriesOk(keep) && keep.Keys !! listed && (full ==> |cur| + |listed| > 128)
    ensures keep.Keys <= cur.Keys && forall n <- keep :: keep[n] == cur[n]
    ensures w.alone ==> Remaining(old(w.installed), w.installed, cur, listed, depends, {})
    // without failures exactly what is due and nothing depends on is dropped, and what is refused is kept
    ensures w.alone && w.reliable ==>
              r.Done? && forall n :: Due(cur, listed, old(w.installed), n) && !depends(n) ==> n !in w.installed
    ensures w.alone && w.reliable && !full ==> Refusals(old(w.installed), cur, listed, depends, keep, {})
  {
    var all: map<string, Entry>;
    all, r := DropAll(w, cur, listed, depends);
    keep, full := Truncate(all, listed, cur);
  }

  method DropAll(w: World, cur: map<string, Entry>, listed: set<string>, depends: string -> bool)
      returns (keep: map<string, Entry>, r: Outcome)
    requires w.Inv() && w.EntriesOk(cur)
    modifies w`installed, w`next, w`hits
    ensures w.Inv() && keep.Keys <= cur.Keys - listed && forall n <- keep :: keep[n] == cur[n]
    ensures w.alone ==> Remaining(old(w.installed), w.installed, cur, listed, depends, {})
    ensures w.alone && w.reliable ==>
              r.Done? && forall n :: Due(cur, listed, old(w.installed), n) && !depends(n) ==> n !in w.installed
    ensures w.alone && w.reliable ==> Refusals(old(w.installed), cur, listed, depends, keep, {})
  {
    keep := map[];
    var rest := cur.Keys - listed;
    while rest != {}
      invariant w.Inv() && rest <= cur.Keys - listed && keep.Keys <= cur.Keys - listed
      invariant forall n <- keep :: keep[n] == cur[n]
      invariant w.alone ==> Remaining(old(w.installed), w.installed, cur, listed, depends, rest)
      invariant w.alone && w.reliable ==> Refusals(old(w.installed), cur, listed, depends, keep, rest)
      invariant w.alone && w.reliable ==>
                  forall n :: Due(cur, listed, old(w.installed), n) && !depends(n) && n !in rest ==> n !in w.installed
      decreases rest
    {
      var n :| n in rest;
      rest := rest - {n};
      var o1, o2: Actor := *, *;
      var again;
      again, r := DropOne(w, n, cur[n], depends(n), o1, o2);
      if r.Crashed? {
        return;
      }
      if again {
        keep := keep[n := cur[n]];
      }
    }
    r := Done;
  }

  /** Kept are the entries, of those not in rest, whose drops were refused. */
  ghost predicate Refusals(before: Installations, cur: map<string, Entry>, listed: set<string>, depends: string -> bool,
                           keep: map<string, Entry>, rest: set<string>) {
    forall n :: n in keep <==> n !in rest && Due(cur, listed, before, n) && depends(n)
  }

  /** Nothing is gone but what was due and nothing depends on, and nothing in rest is. */
  ghost predicate Remaining(before: Installations, after: Installations, cur: map<string, Entry>, listed: set<string>,
                            depends: string -> bool, rest: set<string>) {
    && (forall n <- after :: n in before && after[n] == before[n])
    && (forall n <- before :: n in rest || !Due(cur, listed, before, n) || depends(n) ==> n in after)
  }

  function Listed(spec: seq<Wish>): set<string> {
    set x <- spec :: x.plan.name
  }

  /** An extension of the spec, or one that CASCADE may bring for it. */
  ghost predicate Wanted(catalog: ExtensionPlan.Server, spec: seq<Wish>, n: string) {
    exists x <- spec :: n == x.plan.name || Brings(catalog.(installed := {}), x.plan, n)
  }

  /** All that was installed still is, and nothing is new but what is wanted. */
  ghost predicate OnlyAdded(catalog: ExtensionPlan.Server, spec: seq<Wish>, before: Installations,
                            after: Installations) {
    && (forall n <- before :: n in after && after[n] == before[n])
    && (forall n <- after :: n in before || Wanted(catalog, spec, n))
  }

  /** What CASCADE brings it may bring to a server without extensions, too. */
  lemma BringsFromScratch(s: ExtensionPlan.Server, x: ExtensionPlan.Wish, n: string)
    requires Brings(s, x, n)
    ensures Brings(s.(installed := {}), x, n)
  {
    var info := ExtensionPlan.Version(s, x.name, x.version).value;
    var p :| ExtensionPlan.Chain(s, info, p) && p[|p| - 1] == n;
    assert ExtensionPlan.Chain(s.(installed := {}), info, p);
  }

  lemma AddedNext(catalog: ExtensionPlan.Server, spec: seq<Wish>, x: Wish, before: Installations, now: Installations,
                  after: Installations)
    requires x in spec && OnlyAdded(catalog, spec, before, now)
    requires after == now || Brought(catalog, x.plan, now, after)
    ensures OnlyAdded(catalog, spec, before, after)
  {
    forall n <- after ensures n in before || Wanted(catalog, spec, n) {
      if n !in now && n != x.plan.name {
        BringsFromScratch(catalog.(installed := now.Keys), x.plan, n);
        assert catalog.(installed := now.Keys).(installed := {}) == catalog.(installed := {});
      }
    }
  }

  /** The statuses of these names: those that say created own what is installed, and so do those of the
      extensions that were owned before, and of the ones created since. */
  ghost predicate Claims(names: set<string>, status: map<string, Entry>, before: Installations,
                         statuses: map<string, Entry>, now: Installations, created: seq<Creation>) {
    && names <= statuses.Keys
    && (forall n <- names :: statuses[n].created ==> Owns(statuses[n], now, n))
    && (forall n <- names :: n in status && Owns(status[n], before, n) ==> Owns(statuses[n], now, n))
    && (forall c <- created :: c.wish.name in names && Owns(statuses[c.wish.name], now, c.wish.name))
  }

  lemma ClaimsNext(names: set<string>, status: map<string, Entry>, before: Installations,
                   statuses: map<string, Entry>, mid: Installations, now: Installations, created: seq<Creation>,
                   created': seq<Creation>, n: string, e: Entry)
    requires Claims(names, status, before, statuses, mid, created) && n !in names
    requires (forall k <- mid :: k in now && now[k] == mid[k])
    requires (forall k <- before :: k in mid && mid[k] == before[k])
    requires e.created ==> Owns(e, now, n)
    requires n in status && Owns(status[n], mid, n) ==> e.created
    requires created' == created || (Owns(e, now, n) && |created'| == |created| + 1 && created'[..|created|] == created
                                     && created'[|created|].wish.name == n)
    ensures Claims(names + {n}, status, before, statuses[n := e], now, created')
  {
    assert forall c <- created' :: c in created || (|created'| > |created| && c == created'[|created|]);
  }

  lemma ClaimsAfterDrops(names: set<string>, status: map<string, Entry>, before: Installations,
                         statuses: map<string, Entry>, keep: map<string, Entry>, mid: Installations,
                         now: Installations, created: seq<Creation>, cur: map<string, Entry>, depends: string -> bool)
    requires Claims(names, status, before, statuses, mid, created) && keep.Keys !! names
    requires Remaining(mid, now, cur, names, depends, {})
    ensures Claims(names, status, before, statuses + keep, now, created)
  {
    forall n <- names | n in mid ensures n in now && now[n] == mid[n] {
      assert !Due(cur, names, mid, n);
    }
  }

  /** All entries but those of these names are as in the status. */
  ghost predicate SameBut(names: set<string>, status: map<string, Entry>, cur: map<string, Entry>) {
    forall n :: n !in names ==> (n in cur <==> n in status) && (n in cur ==> cur[n] == status[n])
  }

  /** One extension of the spec; status and before are what the pass has started with, c0 the number of
      creations by then. */
  method ReconcileNext(w: World, policy: set<string>, spec: seq<Wish>, x: Wish, cur: map<string, Entry>,
                       statuses: map<string, Entry>, ghost status: map<string, Entry>, ghost before: Installations,
                       ghost c0: nat)
      returns (cur': map<string, Entry>, statuses': map<string, Entry>, r: Outcome)
    requires w.Inv() && w.EntriesOk(cur) && x in spec && x.plan.name !in statuses && |w.creations| >= c0
    requires forall n <- statuses :: n in cur && statuses[n] == cur[n]
    requires SameBut(statuses.Keys, status, cur) && (w.alone ==> OnlyAdded(w.catalog, spec, before, w.installed))
    requires w.alone && w.reliable ==>
               Claims(statuses.Keys, status, before, statuses, w.installed, w.creations[c0..])
    modifies w`installed, w`next, w`made, w`misread, w`creations, w`status
    ensures w.Inv() && w.EntriesOk(cur') && |w.creations| >= c0
    ensures forall n <- statuses' :: n in cur' && statuses'[n] == cur'[n]
    ensures statuses'.Keys == statuses.Keys + {x.plan.name}
    ensures SameBut(statuses'.Keys, status, cur') && (w.alone ==> OnlyAdded(w.catalog, spec, before, w.installed))
    ensures w.alone && w.reliable ==>
              !r.Crashed? && Claims(statuses'.Keys, status, before, statuses', w.installed, w.creations[c0..])
  {
    ghost var now, created := w.installed, w.creations;
    var e;
    e, r := ReconcileOne(w, x, policy, cur, Listed(spec));
    if w.alone {
      AddedNext(w.catalog, spec, x, before, now, w.installed);
    }
    if w.alone && w.reliable {
      ClaimsNext(statuses.Keys, status, before, statuses, now, w.installed, created[c0..], w.creations[c0..],
                 x.plan.name, e);
    }
    cur', statuses' := cur[x.plan.name := e], statuses[x.plan.name := e];
  }

  method ReconcileAll(w: World, policy: set<string>, spec: seq<Wish>)
      returns (cur: map<string, Entry>, statuses: map<string, Entry>, r: Outcome)
    requires w.Inv()
    modifies w`installed, w`next, w`made, w`misread, w`creations, w`status
    ensures w.Inv() && w.EntriesOk(cur) && w.EntriesOk(statuses) && |w.creations| >= |old(w.creations)|
    ensures w.alone ==> OnlyAdded(w.catalog, spec, old(w.installed), w.installed)
    ensures SameBut(Listed(spec), old(w.status), cur)
    ensures w.alone && w.reliable ==> r.Done? && statuses.Keys == Listed(spec)
    ensures w.alone && w.reliable ==>
              Claims(Listed(spec), old(w.status), old(w.installed), statuses, w.installed,
                     w.creations[|old(w.creations)|..])
  {
    cur, statuses, r := w.status, map[], Done;
    for k := 0 to |spec|
      invariant w.Inv() && w.EntriesOk(cur) && |w.creations| >= |old(w.creations)|
      invariant forall n <- statuses :: n in cur && statuses[n] == cur[n]
      invariant statuses.Keys == Listed(spec[..k]) && SameBut(statuses.Keys, old(w.status), cur)
      invariant w.alone ==> OnlyAdded(w.catalog, spec, old(w.installed), w.installed)
      invariant w.alone && w.reliable ==>
                  Claims(statuses.Keys, old(w.status), old(w.installed), statuses, w.installed,
                         w.creations[|old(w.creations)|..])
    {
      ListedNext(spec, k);
      if spec[k].plan.name !in statuses {
        cur, statuses, r := ReconcileNext(w, policy, spec, spec[k], cur, statuses, old(w.status), old(w.installed),
                                          |old(w.creations)|);
        if r.Crashed? {
          return;
        }
      }
    }
    assert spec[..|spec|] == spec;
    r := Done;
  }

  lemma ListedNext(spec: seq<Wish>, k: nat)
    requires k < |spec|
    ensures Listed(spec[..k + 1]) == Listed(spec[..k]) + {spec[k].plan.name} <= Listed(spec)
  {
    assert spec[..k + 1] == spec[..k] + [spec[k]];
  }

  method Pass(w: World, policy: set<string>, spec: seq<Wish>, depends: string -> bool)
      returns (full: bool, r: Outcome)
    requires w.Inv()
    modifies w`installed, w`next, w`made, w`misread, w`creations, w`status, w`hits
    ensures w.Inv()
    // undisturbed: nothing is new but what is wanted; and without failures what was due is dropped unless
    // other objects depend on it, and nothing else
    ensures w.alone ==> forall n <- w.installed :: n in old(w.installed) || Wanted(w.catalog, spec, n)
    ensures w.alone && w.reliable ==>
              r.Done? && Dropped(old(w.status), old(w.installed), w.installed, Listed(spec), depends)
    // an entry whose drop is refused stays, unless the status is full
    ensures w.alone && w.reliable && !full ==> Stay(old(w.status), old(w.installed), w.status, Listed(spec), depends)
    // what was owned and is still listed, and what has been created, is claimed, and nothing else
    ensures |w.creations| >= |old(w.creations)|
    ensures w.alone && w.reliable ==>
              Claims(Listed(spec), old(w.status), old(w.installed), w.status, w.installed,
                     w.creations[|old(w.creations)|..])
  {
    full := false;
    var cur, statuses, keep;
    cur, statuses, r := ReconcileAll(w, policy, spec);
    if r.Crashed? {
      return;
    }
    ghost var installed := w.installed;
    keep, full, r := DropRemoved(w, cur, Listed(spec), depends);
    if w.alone && w.reliable {
      ClaimsAfterDrops(Listed(spec), old(w.status), old(w.installed), statuses, keep, installed, w.installed,
                       w.creations[|old(w.creations)|..], cur, depends);
      PassDrops(old(w.status), cur, old(w.installed), installed, w.installed, Listed(spec), depends);
      if !full {
        PassKeeps(old(w.status), cur, old(w.installed), installed, Listed(spec), depends, statuses, keep);
      }
    }
    if r.Crashed? {
      return;
    }
    r := w.Save(statuses + keep);
  }

  /** Gone is exactly what was due and nothing depends on. */
  ghost predicate Dropped(status: map<string, Entry>, before: Installations, after: Installations, listed: set<string>,
                          depends: string -> bool) {
    forall n <- before :: n in after <==> !Due(status, listed, before, n) || depends(n)
  }

  /** On record is still whatever was due and could not be dropped. */
  ghost predicate Stay(status: map<string, Entry>, before: Installations, after: map<string, Entry>,
                       listed: set<string>, depends: string -> bool) {
    forall n :: Due(status, listed, before, n) && depends(n) ==> n in after && after[n] == status[n]
  }

  lemma PassDrops(status: map<string, Entry>, cur: map<string, Entry>, before: Installations, mid: Installations,
                  after: Installations, listed: set<string>, depends: string -> bool)
    requires SameBut(listed, status, cur) && forall n <- before :: n in mid && mid[n] == before[n]
    requires Remaining(mid, after, cur, listed, depends, {})
    requires forall n :: Due(cur, listed, mid, n) && !depends(n) ==> n !in after
    ensures Dropped(status, before, after, listed, depends)
  {
    forall n <- before ensures n in after <==> !Due(status, listed, before, n) || depends(n) {
      assert Due(status, listed, before, n) == Due(cur, listed, mid, n);
    }
  }

  lemma PassKeeps(status: map<string, Entry>, cur: map<string, Entry>, before: Installations, mid: Installations,
                  listed: set<string>, depends: string -> bool, statuses: map<string, Entry>, keep: map<string, Entry>)
    requires SameBut(listed, status, cur) && forall n <- before :: n in mid && mid[n] == before[n]
    requires Refusals(mid, cur, listed, depends, keep, {}) && forall n <- keep :: n in cur && keep[n] == cur[n]
    ensures Stay(status, before, statuses + keep, listed, depends)
  {
    forall n | Due(status, listed, before, n) && depends(n) ensures n in keep && keep[n] == status[n] {
      assert Due(cur, listed, mid, n);
    }
  }

  // ---------- runs ----------

  /** In the state of the statement, what the creation requires leads to n through an extension that was
      installed when it was planned and has been dropped since (perhaps n itself). */
  ghost predicate ThroughDropped(t: ExtensionPlan.Server, info: ExtensionPlan.Info, c: Creation, n: string) {
    exists p :: PassesDropped(t, info, c, p) && p[|p| - 1] == n
  }

  ghost predicate PassesDropped(t: ExtensionPlan.Server, info: ExtensionPlan.Info, c: Creation, p: seq<string>) {
    ExtensionPlan.Chain(t, info, p) && exists i :: 0 <= i < |p| && p[i] in c.planned && p[i] !in c.actual
  }

  /** Extension n is installed, or CASCADE may bring it and the policy allows every script of it. */
  ghost predicate Fine(t: ExtensionPlan.Server, c: Creation, n: string) {
    n in t.installed || (c.wish.cascade && ExtensionPlan.Installable(t, n)
                         && ExtensionPlan.MayInstall(t, c.policy, n, ExtensionPlan.Version(t, n, "").value.version))
  }

  /** Whatever the creation reaches through an extension dropped since the plan is fine. */
  ghost predicate DroppedFine(catalog: ExtensionPlan.Server, c: Creation) {
    var t := catalog.(installed := c.actual);
    var info := ExtensionPlan.Version(t, c.wish.name, c.wish.version);
    info.Some? ==> forall n :: n != info.value.name && ThroughDropped(t, info.value, c, n) ==> Fine(t, c, n)
  }

  /** Every script of every extension that it installed is trusted or allowed. */
  ghost predicate CreatedWell(catalog: ExtensionPlan.Server, c: Creation) {
    ExtensionPlan.Installs(catalog.(installed := c.actual), c.policy, c.wish)
  }

  /** A chain of requirements without a dropped extension was one when the creation was planned. */
  lemma ChainOfPlan(s: ExtensionPlan.Server, t: ExtensionPlan.Server, info: ExtensionPlan.Info, c: Creation,
                    p: seq<string>)
    requires s.installed == c.planned && t == s.(installed := c.actual)
    requires ExtensionPlan.Chain(t, info, p) && !PassesDropped(t, info, c, p)
    ensures ExtensionPlan.Chain(s, info, p) && (p[|p| - 1] in c.planned ==> p[|p| - 1] in c.actual)
  {
    forall i | 0 <= i < |p| - 1 ensures ExtensionPlan.Expands(s, info, p[i]) {
      assert ExtensionPlan.Expands(t, info, p[i]) && p[i + 1] in ExtensionPlan.Version(t, p[i], "").value.required;
    }
    forall i | 0 <= i < |p| - 1 ensures p[i + 1] in ExtensionPlan.Version(s, p[i], "").value.required {
      assert p[i + 1] in ExtensionPlan.Version(t, p[i], "").value.required;
    }
  }

  /** A creation that was planned well installs only what the policy allows, if and only if what CASCADE
      reaches through an extension dropped since the plan is allowed. */
  lemma DroppedDecides(catalog: ExtensionPlan.Server, c: Creation)
    requires ExtensionPlan.Installs(catalog.(installed := c.planned), c.policy, c.wish)
    ensures CreatedWell(catalog, c) <==> DroppedFine(catalog, c)
  {
    var s, t := catalog.(installed := c.planned), catalog.(installed := c.actual);
    var info := ExtensionPlan.Version(t, c.wish.name, c.wish.version).value;
    SameScripts(s, t, c.policy, c.wish.name, info.version);
    if DroppedFine(catalog, c) {
      forall n | ExtensionPlan.Needs(t, info, n) ensures Fine(t, c, n) {
        NeededIsFine(catalog, c, s, t, info, n);
      }
    } else {
      var n :| n != info.name && ThroughDropped(t, info, c, n) && !Fine(t, c, n);
      var p :| PassesDropped(t, info, c, p) && p[|p| - 1] == n;
      assert ExtensionPlan.Needs(t, info, n);
    }
  }

  lemma NeededIsFine(catalog: ExtensionPlan.Server, c: Creation, s: ExtensionPlan.Server, t: ExtensionPlan.Server,
                     info: ExtensionPlan.Info, n: string)
    requires s == catalog.(installed := c.planned) && t == catalog.(installed := c.actual)
    requires ExtensionPlan.Version(t, c.wish.name, c.wish.version) == Some(info)
    requires ExtensionPlan.Installs(s, c.policy, c.wish) && DroppedFine(catalog, c) && ExtensionPlan.Needs(t, info, n)
    ensures Fine(t, c, n)
  {
    var p :| ExtensionPlan.Chain(t, info, p) && p[|p| - 1] == n;
    if PassesDropped(t, info, c, p) {
      assert ThroughDropped(t, info, c, n);
    } else {
      ChainOfPlan(s, t, info, c, p);
      assert ExtensionPlan.Needs(s, info, n);
      if n !in t.installed {
        SameScripts(s, t, c.policy, n, ExtensionPlan.Version(s, n, "").value.version);
      }
    }
  }

  lemma SameScripts(s: ExtensionPlan.Server, t: ExtensionPlan.Server, policy: set<string>, name: string,
                    version: string)
    requires t == s.(installed := t.installed)
    ensures ExtensionPlan.MayInstall(s, policy, name, version) <==> ExtensionPlan.MayInstall(t, policy, name, version)
  {
    forall v
      ensures ExtensionPlan.InstallRuns(s, name, version, v) <==> ExtensionPlan.InstallRuns(t, name, version, v) {
      assert forall p :: ExtensionPlan.Reaches(s, name, p, v) == ExtensionPlan.Reaches(t, name, p, v);
    }
    assert forall v :: ExtensionPlan.Trusted(s, name, v) == ExtensionPlan.Trusted(t, name, v);
  }

  /** Any run of passes over any specs and policies, with others acting before every statement. A DROP
      EXTENSION hits an installation that pgop created itself, and that has the owner on record, if and
      only if it hits what was looked up and that was no misreading of an earlier creation. A CREATE
      EXTENSION runs only scripts that are trusted or allowed, if and only if that holds of what CASCADE
      reaches through an extension dropped after it was planned. */
  method Run(w: World, passes: seq<(set<string>, seq<Wish>, string -> bool)>)
    requires w.Inv()
    modifies w`installed, w`next, w`made, w`misread, w`creations, w`status, w`hits
    ensures w.Inv() && (forall h <- w.hits :: w.HitOk(h))
    ensures forall c <- w.creations :: CreatedWell(w.catalog, c) <==> DroppedFine(w.catalog, c)
  {
    for k := 0 to |passes|
      invariant w.Inv()
    {
      var full, r := Pass(w, passes[k].0, passes[k].1, passes[k].2);
    }
    forall c <- w.creations ensures CreatedWell(w.catalog, c) <==> DroppedFine(w.catalog, c) {
      DroppedDecides(w.catalog, c);
    }
  }

  // ---------- the moments at which others do spoil it ----------

  /** Replaced between lookup and drop, an extension is dropped that pgop did not create. */
  method ReplacedBeforeDrop(w: World, policy: set<string>, x: Wish, owner: string)
    requires w.Inv() && !w.alone && w.reliable && x.dropOnRemoval
    requires Allowed(w, policy, x) && x.plan.name !in w.installed
    modifies w`installed, w`next, w`made, w`misread, w`creations, w`status, w`hits
    ensures w.Inv() && exists h <- w.hits :: !w.Own(h)
  {
    var name := x.plan.name;
    AllowedIsPossible(w, policy, x);
    NobodyChanges(w);
    var e, i, r := CreateOne(w, x, policy, map[], {name}, NOBODY, NOBODY);
    ghost var replaced := w.After(Replacer(name, owner));
    assert name in replaced && replaced[name].oid == w.next;
    var keep;
    keep, r := DropOne(w, name, e, false, NOBODY, Replacer(name, owner));
    assert !w.Own(w.hits[|w.hits| - 1]);
  }

  /** Replaced between creation and lookup, it is dropped later although nobody interferes then. */
  method ReplacedBeforeLookup(w: World, policy: set<string>, x: Wish, owner: string)
    requires w.Inv() && !w.alone && w.reliable && x.dropOnRemoval
    requires Allowed(w, policy, x) && x.plan.name !in w.installed
    modifies w`installed, w`next, w`made, w`misread, w`creations, w`status, w`hits
    ensures w.Inv() && exists h <- w.hits :: h.hit == h.looked && !w.Own(h)
  {
    var name := x.plan.name;
    AllowedIsPossible(w, policy, x);
    NobodyChanges(w);
    var e, i, r := CreateOne(w, x, policy, map[], {name}, NOBODY, Replacer(name, owner));
    NobodyChanges(w);
    var keep;
    keep, r := DropOne(w, name, e, false, NOBODY, NOBODY);
    assert w.hits[|w.hits| - 1].hit == w.hits[|w.hits| - 1].looked;
    assert w.HitOk(w.hits[|w.hits| - 1]);
  }

  lemma NobodyChanges(w: World)
    requires w.Inv()
    ensures w.After(NOBODY) == w.installed
  {
  }

  /** y is required by x; it stands alone, is installed, and the policy does not allow it. */
  ghost predicate HangsOn(w: World, policy: set<string>, x: ExtensionPlan.Wish, y: string)
    reads w`installed
  {
    var info := ExtensionPlan.Version(w.Server(), x.name, x.version);
    var version := ExtensionPlan.Version(w.Server(), y, "");
    && info.Some? && y in info.value.required && y != x.name && y in w.installed && x.cascade
    && version.Some? && version.value.required == []
    && !ExtensionPlan.MayInstall(w.Server(), policy, y, version.value.version)
  }

  /** Dropped between plan and creation, it is installed again by CASCADE, without having been checked. */
  method DroppedBeforeCreate(w: World, policy: set<string>, x: Wish, y: string)
    requires w.Inv() && !w.alone && w.reliable
    requires Allowed(w, policy, x) && x.plan.name !in w.installed && HangsOn(w, policy, x.plan, y)
    modifies w`installed, w`next, w`made, w`misread, w`creations, w`status
    ensures w.Inv() && exists c <- w.creations :: !CreatedWell(w.catalog, c)
  {
    StillPossible(w, policy, x, y);
    var e, i, r := CreateOne(w, x, policy, map[], {x.plan.name}, Dropper(y), NOBODY);
    assert !CreatedWell(w.catalog, w.creations[|w.creations| - 1]);
  }

  lemma StillPossible(w: World, policy: set<string>, x: Wish, y: string)
    requires w.Inv() && !w.alone
    requires Allowed(w, policy, x) && x.plan.name !in w.installed && HangsOn(w, policy, x.plan, y)
    ensures w.After(Dropper(y)) == w.installed - {y} && Runs(w, policy, x, Dropper(y))
    ensures !ExtensionPlan.Installs(w.catalog.(installed := (w.installed - {y}).Keys), policy, x.plan)
  {
    var s, t := w.Server(), w.catalog.(installed := (w.installed - {y}).Keys);
    var info := ExtensionPlan.Version(s, x.plan.name, x.plan.version).value;
    forall n | ExtensionPlan.Needs(t, info, n) && n !in t.installed ensures ExtensionPlan.Installable(t, n) {
      if n != y {
        NeedsWithout(s, t, info, y, n);
        assert ExtensionPlan.Installable(s, n);
      }
    }
    ExtensionPlan.RequiredFirst(t, info, y);
    assert ExtensionPlan.Needs(t, info, y);
    SameScripts(s, t, policy, y, ExtensionPlan.Version(s, y, "").value.version);
  }

  /** Without y, which requires nothing, no more is needed. */
  lemma NeedsWithout(s: ExtensionPlan.Server, t: ExtensionPlan.Server, info: ExtensionPlan.Info, y: string, n: string)
    requires t == s.(installed := s.installed - {y}) && ExtensionPlan.Needs(t, info, n)
    requires ExtensionPlan.Version(s, y, "").Some? && ExtensionPlan.Version(s, y, "").value.required == []
    ensures ExtensionPlan.Needs(s, info, n)
  {
    var p :| ExtensionPlan.Chain(t, info, p) && p[|p| - 1] == n;
    forall i | 0 <= i < |p| - 1 ensures ExtensionPlan.Expands(s, info, p[i]) {
      assert p[i + 1] in ExtensionPlan.Version(t, p[i], "").value.required;
    }
    assert ExtensionPlan.Chain(s, info, p);
  }
}
