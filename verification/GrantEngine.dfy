/** The grant engine: it grants what is declared and missing, after recording it, and revokes what it
    recorded and is no longer declared. Orders (of keys, of privileges) are left to chance. */
module GrantEngine {
  import opened GrantWorld

  /** A declared grant: with the grant option for all its privileges or for none. */
  datatype Desired = Desired(key: string, grant: Grant)

  predicate Declarable(g: Grant) {
    g.options == {} || g.options == g.privileges
  }

  /** held is what the grantee was read to hold. */
  datatype Planned = Planned(key: string, held: set<string>, plain: set<string>, options: set<string>, added: Grant)

  /** The grant declared last for key k. */
  function WantAt(desired: seq<Desired>, k: string): (g: Grant)
    ensures (forall d <- desired :: Declarable(d.grant)) ==> Declarable(g)
    ensures (forall d <- desired :: d.key != k) ==> g == NO_GRANT
  {
    if desired == [] then NO_GRANT
    else if desired[|desired| - 1].key == k then desired[|desired| - 1].grant
    else WantAt(desired[..|desired| - 1], k)
  }

  predicate Distinct(desired: seq<Desired>) {
    forall i, j :: 0 <= i < j < |desired| ==> desired[i].key != desired[j].key
  }

  // ---------- what a pass is to achieve, for one key ----------

  /** What is declared and missing. */
  function New(a: Acl, d: Grant): Grant {
    Grant(d.privileges - a.held, d.options - a.options)
  }

  /** The ledger entry: what was recorded and is still declared, and what is new. */
  function EntryAfter(l: Grant, d: Grant, new_: Grant): Grant {
    Grant(l.privileges * d.privileges + new_.privileges, l.options * d.options + new_.options)
  }

  /** What is recorded and no longer declared is revoked, except for skipped. */
  ghost predicate AclAfter(before: Acl, after: Acl, l: Grant, d: Grant, new_: Grant, skipped: set<string>) {
    var gone := l.privileges - d.privileges - skipped;
    && after.present == before.present
    && after.held == before.held + new_.privileges - gone
    && after.options == before.options + new_.options - (l.options - d.options) - gone
    && after.passedOn == before.passedOn - (l.options - d.options) - gone
  }

  /** Nothing is missing and nothing is recorded in vain. */
  ghost predicate AtRest(a: Acl, l: Grant, d: Grant) {
    d.privileges <= a.held && d.options <= a.options && Within(l, d)
  }

  // ---------- planning ----------

  /** The plan p adds privileges that were not held, and grant options of privileges that were held or are
      added, too. */
  ghost predicate Formed(p: Planned) {
    && p.options == p.added.options && p.plain == p.added.privileges - p.options
    && p.options <= p.held + p.added.privileges
    && p.added.privileges !! p.held
  }

  /** It was made for a grantee that holds a. */
  ghost predicate Plans(p: Planned, a: Acl) {
    Formed(p) && p.held == a.held && p.added.options !! a.options
  }

  ghost predicate PlanNew(p: Planned, initial: Acl, alone: bool) {
    alone ==> p.added.privileges !! initial.held && p.added.options !! initial.options
  }

  /** What was read to be held still is, or others have taken it away. */
  ghost predicate Stands(p: Planned, acls: Acls, taken: Sets) {
    p.held <= AclAt(acls, p.key).held + SetAt(taken, p.key)
  }

  ghost predicate ReadyOne(p: Planned, keys: set<string>, acls: Acls, taken: Sets, initial: Acls, alone: bool) {
    Formed(p) && p.key in keys && PlanNew(p, AclAt(initial, p.key), alone) && Stands(p, acls, taken)
  }

  ghost predicate Ready(plan: seq<Planned>, keys: set<string>, acls: Acls, taken: Sets, initial: Acls, alone: bool) {
    forall p <- plan :: ReadyOne(p, keys, acls, taken, initial, alone)
  }

  lemma StillReady(plan: seq<Planned>, keys: set<string>, acls: Acls, acls': Acls, taken: Sets, taken': Sets,
                   initial: Acls, alone: bool)
    requires Ready(plan, keys, acls, taken, initial, alone) && NothingLost(acls, acls', taken, taken')
    ensures Ready(plan, keys, acls', taken', initial, alone)
  {
    forall p <- plan ensures ReadyOne(p, keys, acls', taken', initial, alone) {
      assert HeldOrTaken(AclAt(acls, p.key), AclAt(acls', p.key), SetAt(taken, p.key), SetAt(taken', p.key));
    }
  }

  method PlanMissing(w: World, d: Desired) returns (p: Planned, r: Outcome)
    requires w.Inv() && Declarable(d.grant)
    modifies w`acls, w`ours, w`taken
    ensures w.Inv() && Fewer(old(w.ours), w.ours) && NothingLost(old(w.acls), w.acls, old(w.taken), w.taken)
    ensures r.Done? ==> ReadyOne(p, {d.key}, w.acls, w.taken, w.initial, w.alone)
    ensures r.Done? ==>
              p.key == d.key && p.added == New(AclAt(w.acls, d.key), d.grant) && Plans(p, AclAt(w.acls, d.key))
    ensures w.reliable ==> r.Done?
    ensures w.quiet ==> w.acls == old(w.acls) && w.ours == old(w.ours)
  {
    var held, grantable;
    held, grantable, r := w.Held(d.key);
    var missing := d.grant.privileges - held;
    var options := d.grant.options - grantable;
    p := Planned(d.key, held, missing - options, options, Grant(missing, options));
    assert w.KeyOk(d.key);
  }

  function Added(plan: seq<Planned>, k: string): Grant {
    if plan == [] then NO_GRANT
    else
      var rest := Added(plan[..|plan| - 1], k);
      var last := plan[|plan| - 1];
      if last.key == k then Merge(rest, last.added) else rest
  }

  lemma AddedNext(plan: seq<Planned>, i: nat, k: string)
    requires i < |plan|
    ensures Added(plan[..i + 1], k)
            == if plan[i].key == k then Merge(Added(plan[..i], k), plan[i].added) else Added(plan[..i], k)
  {
    assert plan[..i + 1][..i] == plan[..i];
  }

  lemma {:induction false} AddedHas(plan: seq<Planned>, p: Planned)
    requires p in plan
    ensures Within(p.added, Added(plan, p.key))
  {
    if p != plan[|plan| - 1] {
      AddedHas(plan[..|plan| - 1], p);
    }
  }

  /** The ledger in the status: the engine's entries and the ones it leaves alone, no empty ones. */
  function Record(tracked: Ledger, kept: Ledger): (m: Ledger)
    ensures forall k :: GrantAt(m, k) == if k in kept then kept[k] else GrantAt(tracked, k)
    ensures m.Keys <= tracked.Keys + kept.Keys && Tidy(m)
  {
    map k | k in tracked.Keys + kept.Keys && !Empty(if k in kept then kept[k] else tracked[k])
      :: if k in kept then kept[k] else tracked[k]
  }

  ghost predicate PlanFits(plan: seq<Planned>, acls: Acls, keys: set<string>) {
    forall p <- plan :: Plans(p, AclAt(acls, p.key)) && p.key in keys
  }

  /** The plan adds what is missing of the declared grants, except for the keys whose reads failed. */
  ghost predicate PlanIsFull(plan: seq<Planned>, acls: Acls, desired: seq<Desired>, failed: set<string>) {
    forall k :: k !in failed ==> Added(plan, k) == New(AclAt(acls, k), WantAt(desired, k))
  }

  ghost predicate NothingMissing(desired: seq<Desired>, acls: Acls) {
    forall d <- desired :: Empty(New(AclAt(acls, d.key), d.grant))
  }

  lemma PlanGrows(plan: seq<Planned>, acls: Acls, desired: seq<Desired>, i: nat, failed: set<string>, p: Planned)
    requires i < |desired| && Distinct(desired) && PlanIsFull(plan, acls, desired[..i], failed)
    requires p.key == desired[i].key && p.added == New(AclAt(acls, p.key), desired[i].grant)
    ensures PlanIsFull(if Empty(p.added) then plan else plan + [p], acls, desired[..i + 1], failed)
  {
    assert desired[..i + 1][..i] == desired[..i] && (plan + [p])[..|plan|] == plan;
    assert WantAt(desired[..i], p.key) == NO_GRANT;
  }

  /** Undisturbed, the plan covers the first i declared grants exactly, except for the keys whose reads
      failed. */
  ghost predicate PlansFor(plan: seq<Planned>, acls: Acls, desired: seq<Desired>, i: nat, failed: set<string>)
    requires i <= |desired|
  {
    && PlanFits(plan, acls, Keys(desired))
    && (Distinct(desired) ==> PlanIsFull(plan, acls, desired[..i], failed))
    && (NothingMissing(desired, acls) ==> plan == [])
  }

  lemma PlanSkips(plan: seq<Planned>, acls: Acls, desired: seq<Desired>, i: nat, failed: set<string>)
    requires i < |desired| && PlanIsFull(plan, acls, desired[..i], failed)
    ensures PlanIsFull(plan, acls, desired[..i + 1], failed + {desired[i].key})
  {
    assert desired[..i + 1][..i] == desired[..i];
  }

  lemma PlansForNext(plan: seq<Planned>, acls: Acls, desired: seq<Desired>, i: nat, failed: set<string>, p: Planned,
                     done: bool)
    requires i < |desired| && PlansFor(plan, acls, desired, i, failed)
    requires done ==> p.key == desired[i].key && p.added == New(AclAt(acls, p.key), desired[i].grant)
                      && Plans(p, AclAt(acls, p.key))
    ensures PlansFor(if done && !Empty(p.added) then plan + [p] else plan, acls, desired, i + 1,
                     if done then failed else failed + {desired[i].key})
  {
    assert desired[i] in desired;
    if Distinct(desired) {
      if done {
        PlanGrows(plan, acls, desired, i, failed, p);
      } else {
        PlanSkips(plan, acls, desired, i, failed);
      }
    }
  }

  method PlanNext(w: World, desired: seq<Desired>, i: nat, plan: seq<Planned>, failed: set<string>)
      returns (plan': seq<Planned>, failed': set<string>, r: Outcome)
    requires w.Inv() && i < |desired| && Declarable(desired[i].grant)
    requires Ready(plan, Keys(desired), w.acls, w.taken, w.initial, w.alone)
    requires w.quiet ==> PlansFor(plan, w.acls, desired, i, failed)
    modifies w`acls, w`ours, w`taken
    ensures w.Inv() && Ready(plan', Keys(desired), w.acls, w.taken, w.initial, w.alone)
    ensures w.reliable ==> r.Done? && failed' == failed
    ensures w.quiet ==> w.acls == old(w.acls) && w.ours == old(w.ours)
    ensures w.quiet ==> PlansFor(plan', w.acls, desired, i + 1, failed')
  {
    ghost var acls, taken := w.acls, w.taken;
    assert desired[i] in desired;
    var p;
    p, r := PlanMissing(w, desired[i]);
    StillReady(plan, Keys(desired), acls, w.acls, taken, w.taken, w.initial, w.alone);
    if w.quiet {
      PlansForNext(plan, w.acls, desired, i, failed, p, r.Done?);
    }
    if r.Done? {
      OneMoreReady(plan, p, desired, i, w.acls, w.taken, w.initial, w.alone);
    }
    plan' := if r.Done? && !Empty(p.added) then plan + [p] else plan;
    failed' := if r.Done? then failed else failed + {desired[i].key};
  }

  method MakePlan(w: World, desired: seq<Desired>) returns (plan: seq<Planned>, failed: set<string>, r: Outcome)
    requires w.Inv() && forall d <- desired :: Declarable(d.grant)
    modifies w`acls, w`ours, w`taken
    ensures w.Inv() && (r.Done? || r.Crashed?)
    ensures Ready(plan, Keys(desired), w.acls, w.taken, w.initial, w.alone)
    ensures w.reliable ==> r.Done? && failed == {}
    // undisturbed, exactly what is missing is planned
    ensures w.quiet ==> w.acls == old(w.acls) && w.ours == old(w.ours) && PlanFits(plan, w.acls, Keys(desired))
    ensures w.quiet && r.Done? && Distinct(desired) ==> PlanIsFull(plan, w.acls, desired, failed)
    ensures w.quiet && NothingMissing(desired, w.acls) ==> plan == []
  {
    plan, failed := [], {};
    var i := 0;
    while i < |desired|
      invariant i <= |desired| && w.Inv() && (w.reliable ==> failed == {})
      invariant Ready(plan, Keys(desired), w.acls, w.taken, w.initial, w.alone)
      invariant w.quiet ==> w.acls == old(w.acls) && w.ours == old(w.ours)
      invariant w.quiet ==> PlansFor(plan, w.acls, desired, i, failed)
    {
      plan, failed, r := PlanNext(w, desired, i, plan, failed);
      if r.Crashed? {
        return;
      }
      i := i + 1;
    }
    assert desired[..i] == desired;
    r := Done;
  }

  lemma OneMoreReady(plan: seq<Planned>, p: Planned, desired: seq<Desired>, i: nat, acls: Acls, taken: Sets,
                     initial: Acls, alone: bool)
    requires Ready(plan, Keys(desired), acls, taken, initial, alone) && i < |desired| && p.key == desired[i].key
    requires ReadyOne(p, {p.key}, acls, taken, initial, alone)
    ensures Ready(plan + [p], Keys(desired), acls, taken, initial, alone) && p.key in Keys(desired)
  {
    assert desired[i] in desired;
  }

  // ---------- revoking ----------

  /** pgop's own grants only get fewer, and m covers those at k; undisturbed, all else stays. */
  twostate predicate Shrinks(w: World, k: string, m: Grant)
    reads w
  {
    && w.Right(k, m) && Fewer(old(w.ours), w.ours)
    && (forall j :: j != k ==> w.RefusedAt(j) == old(w.RefusedAt(j)))
    && (w.quiet ==> w.Only(k) && AclAt(w.acls, k).passedOn <= old(AclAt(w.acls, k)).passedOn)
  }

  ghost predicate Revocable(w: World, k: string, privileges: set<string>)
    reads w
  {
    w.alone ==> privileges !! AclAt(w.initial, k).held && privileges !! AclAt(w.initial, k).options
  }

  /** Revokes the privileges one at a time, without CASCADE. */
  method RevokeEach(w: World, k: string, privileges: set<string>)
      returns (done: set<string>, blocked: set<string>, r: Outcome)
    requires w.Inv() && Revocable(w, k, privileges)
    modifies w`acls, w`ours, w`taken, w`statements
    ensures w.Inv() && Fewer(old(w.ours), w.ours) && !r.Dependents?
    ensures done !! blocked && done + blocked <= privileges
    ensures GrantAt(w.ours, k).privileges !! done
    ensures r.Done? ==> done + blocked == privileges
    ensures w.reliable ==> r.Done?
    ensures w.quiet ==> w.Only(k) && RevokedEach(old(AclAt(w.acls, k)), AclAt(w.acls, k), done, blocked, r.Done?)
  {
    var rest := privileges;
    done, blocked := {}, {};
    var failed := false;
    while rest != {}
      invariant w.Inv() && Fewer(old(w.ours), w.ours) && done + blocked <= privileges
      invariant rest <= privileges && done !! blocked && rest !! done + blocked
      invariant GrantAt(w.ours, k).privileges !! done
      invariant w.reliable ==> !failed
      invariant !failed ==> done + blocked + rest == privileges
      invariant w.quiet ==> w.Only(k) && RevokedEach(old(AclAt(w.acls, k)), AclAt(w.acls, k), done, blocked, !failed)
      decreases rest
    {
      var p :| p in rest;
      rest := rest - {p};
      ghost var ours, a := w.ours, AclAt(w.acls, k);
      ghost var mid;
      r, mid := w.RevokeFrom(k, {p}, Plain);
      FewerBoth(old(w.ours), ours, w.ours);
      assert Within(GrantAt(w.ours, k), GrantAt(ours, k));
      match r
      case Dependents => blocked := blocked + {p};
      case Done => done := done + {p};
      case Failed => failed := true;
      case Crashed => return;
    }
    r := if failed then Failed else Done;
  }

  /** What revoking one at a time does to the grantee when nobody else acts. */
  ghost predicate RevokedEach(before: Acl, after: Acl, done: set<string>, blocked: set<string>, all: bool) {
    && blocked <= before.passedOn && after.passedOn <= before.passedOn
    && (all ==> after == Revoked(before, done, Plain))
  }

  /** Revokes what the entry m lists with grant option, and with it what the grantee passed on. */
  method RevokeCascading(w: World, k: string, m: Grant, privileges: set<string>, mode: Mode)
      returns (m': Grant, r: Outcome)
    requires w.Inv() && w.Right(k, m) && !mode.Plain?
    requires privileges <= m.options && (mode.Cascade? ==> privileges <= m.privileges)
    modifies w`acls, w`ours, w`taken, w`statements
    ensures w.Inv() && Shrinks(w, k, m') && !r.Dependents?
    ensures w.refused == old(w.refused)
    ensures !r.Done? ==> m' == m
    ensures r.Done? ==> m' == RevokedGrant(m, privileges, mode)
    ensures w.quiet && r.Done? ==> AclAt(w.acls, k) == Revoked(old(AclAt(w.acls, k)), privileges, mode)
    ensures privileges == {} ==> r.Done? && w.statements == old(w.statements) && w.acls == old(w.acls)
    ensures w.reliable ==> r.Done?
  {
    m', r := m, Done;
    if privileges != {} {
      ghost var mid;
      r, mid := w.RevokeFrom(k, privileges, mode);
      if r.Done? {
        m' := RevokedGrant(m, privileges, mode);
      }
    }
  }

  lemma RecordedIsRevocable(w: World, k: string, m: Grant, privileges: set<string>)
    requires w.Inv() && w.Right(k, m) && privileges <= m.privileges
    ensures Revocable(w, k, privileges)
  {
    assert w.KeyOk(k);
  }

  /** Undisturbed, all the privileges are revoked but the blocked ones. */
  ghost predicate RevokedBut(before: Acl, after: Acl, privileges: set<string>, blocked: set<string>, done: bool) {
    blocked <= before.passedOn && (done ==> after == Revoked(before, privileges - blocked, Plain))
  }

  method RevokeOneByOne(w: World, k: string, m: Grant, privileges: set<string>)
      returns (m': Grant, blocked: set<string>, r: Outcome)
    requires w.Inv() && w.Right(k, m)
    requires privileges <= m.privileges && privileges !! m.options
    modifies w`acls, w`ours, w`taken, w`statements, w`refused
    ensures w.Inv() && Shrinks(w, k, m') && !r.Dependents?
    ensures blocked <= privileges && w.RefusedAt(k) == old(w.RefusedAt(k)) + blocked
    ensures m'.options == m.options && m.privileges - privileges <= m'.privileges <= m.privileges
    ensures r.Done? ==> m'.privileges == m.privileges - privileges
    ensures w.quiet ==> RevokedBut(old(AclAt(w.acls, k)), AclAt(w.acls, k), privileges, blocked, r.Done?)
    ensures w.reliable ==> r.Done?
  {
    RecordedIsRevocable(w, k, m, privileges);
    var done;
    done, blocked, r := RevokeEach(w, k, privileges);
    if r.Crashed? {
      return m, {}, r;
    }
    w.Report(k, blocked);
    m' := m.(privileges := m.privileges - done - blocked);
    assert forall j :: j != k ==> w.RefusedAt(j) == old(w.RefusedAt(j));
    assert r.Done? ==> privileges - blocked == done;
  }

  /** Revokes what the entry m lists without grant option; what the server refuses because the grantee
      passed it on is not forced: it leaves the entry and is reported. */
  method RevokePlain(w: World, k: string, m: Grant, privileges: set<string>)
      returns (m': Grant, blocked: set<string>, r: Outcome)
    requires w.Inv() && w.Right(k, m)
    requires privileges <= m.privileges && privileges !! m.options
    modifies w`acls, w`ours, w`taken, w`statements, w`refused
    ensures w.Inv() && Shrinks(w, k, m') && !r.Dependents?
    ensures blocked <= privileges && w.RefusedAt(k) == old(w.RefusedAt(k)) + blocked
    ensures m'.options == m.options && m.privileges - privileges <= m'.privileges <= m.privileges
    ensures r.Done? ==> m'.privileges == m.privileges - privileges
    ensures w.quiet ==> RevokedBut(old(AclAt(w.acls, k)), AclAt(w.acls, k), privileges, blocked, r.Done?)
    ensures privileges == {} ==> r.Done? && blocked == {} && w.statements == old(w.statements) && w.acls == old(w.acls)
    ensures w.reliable ==> r.Done?
  {
    m', blocked, r := m, {}, Done;
    if privileges == {} {
      return;
    }
    m', r := RevokeAtOnce(w, k, m, privileges);
    if r.Dependents? {
      ghost var ours := w.ours;
      m', blocked, r := RevokeOneByOne(w, k, m, privileges);
      FewerBoth(old(w.ours), ours, w.ours);
    }
  }

  method RevokeAtOnce(w: World, k: string, m: Grant, privileges: set<string>) returns (m': Grant, r: Outcome)
    requires w.Inv() && w.Right(k, m) && privileges <= m.privileges
    requires privileges !! m.options
    modifies w`acls, w`ours, w`taken, w`statements
    ensures w.Inv() && Shrinks(w, k, m')
    ensures m' == if r.Done? then m.(privileges := m.privileges - privileges) else m
    ensures w.quiet ==> RevokedBut(old(AclAt(w.acls, k)), AclAt(w.acls, k), privileges, {}, r.Done?)
    ensures w.quiet && r.Dependents? ==> w.acls == old(w.acls)
    ensures w.reliable ==> r.Done? || r.Dependents?
  {
    RecordedIsRevocable(w, k, m, privileges);
    ghost var mid;
    r, mid := w.RevokeFrom(k, privileges, Plain);
    m' := if r.Done? then m.(privileges := m.privileges - privileges) else m;
  }

  lemma EntryInSteps(m: Grant, m': Grant, d: Grant)
    requires Declarable(d)
    requires var removed := m.privileges - d.privileges;
             m' == Grant(m.privileges - removed, m.options - (m.options - d.options - removed) - removed)
    ensures m' == EntryAfter(m, d, NO_GRANT)
  {
    assert d.options <= d.privileges;
  }

  lemma RevokedInSteps(a: Acl, a': Acl, m: Grant, m': Grant, d: Grant, blocked: set<string>)
    requires Declarable(d) && blocked !! m.options
    requires var removed := m.privileges - d.privileges;
             var optionsOnly := m.options - d.options - removed;
             && m' == Grant(m.privileges - removed, m.options - optionsOnly - removed)
             && a' == Revoked(Revoked(a, optionsOnly, OptionOnly), removed - blocked, Plain)
    ensures AclAfter(a, a', m, d, NO_GRANT, blocked) && m' == EntryAfter(m, d, NO_GRANT)
  {
    assert d.options <= d.privileges;
  }

  /** Revokes what the entry m lists and d no longer declares; m' remains recorded. */
  method RevokeRemoved(w: World, k: string, m: Grant, d: Grant) returns (m': Grant, blocked: set<string>, r: Outcome)
    requires w.Inv() && w.Right(k, m) && Declarable(d)
    modifies w`acls, w`ours, w`taken, w`statements, w`refused
    ensures w.Inv() && Shrinks(w, k, m') && !r.Dependents? && Within(m', m)
    ensures blocked <= m.privileges - d.privileges - m.options && w.RefusedAt(k) == old(w.RefusedAt(k)) + blocked
    ensures r.Done? ==> m' == EntryAfter(m, d, NO_GRANT) || m' == NO_GRANT
    ensures w.quiet ==> blocked <= old(AclAt(w.acls, k)).passedOn
    ensures w.quiet && r.Done? ==> RevokedAt(old(AclAt(w.acls, k)), AclAt(w.acls, k), m, m', d, blocked)
    ensures Within(m, d) ==> r.Done? && m' == m && w.statements == old(w.statements) && w.acls == old(w.acls)
    // what is gone leaves the ledger without a statement
    ensures !Within(m, d) && w.quiet && w.reliable && !old(AclAt(w.acls, k)).present ==>
              m' == NO_GRANT && w.statements == old(w.statements)
    ensures w.reliable ==> r.Done?
  {
    m', blocked, r := m, {}, Done;
    var removed := m.privileges - d.privileges;
    var optionsOnly := m.options - d.options - removed;
    if removed == {} && optionsOnly == {} {
      return;
    }
    m', blocked, r := RevokeUnlessGone(w, k, m, d);
  }

  /** Of a grantee or an object that is gone, nothing has to be revoked. */
  method RevokeUnlessGone(w: World, k: string, m: Grant, d: Grant)
      returns (m': Grant, blocked: set<string>, r: Outcome)
    requires w.Inv() && w.Right(k, m) && Declarable(d)
    modifies w`acls, w`ours, w`taken, w`statements, w`refused
    ensures w.Inv() && Shrinks(w, k, m') && !r.Dependents? && Within(m', m)
    ensures blocked <= m.privileges - d.privileges - m.options && w.RefusedAt(k) == old(w.RefusedAt(k)) + blocked
    ensures r.Done? ==> m' == EntryAfter(m, d, NO_GRANT) || m' == NO_GRANT
    ensures w.quiet ==> blocked <= old(AclAt(w.acls, k)).passedOn
    ensures w.quiet && r.Done? ==> RevokedAt(old(AclAt(w.acls, k)), AclAt(w.acls, k), m, m', d, blocked)
    // what is gone leaves the ledger without a statement
    ensures w.quiet && w.reliable && !old(AclAt(w.acls, k)).present ==>
              m' == NO_GRANT && w.statements == old(w.statements)
    ensures w.reliable ==> r.Done?
  {
    var gone;
    gone, r := w.Gone(k);
    if !r.Done? || gone {
      assert w.KeyOk(k);
      m', blocked := if r.Done? then NO_GRANT else m, {};
      r := if r.Dependents? then Failed else r;
      return;
    }
    ghost var ours := w.ours;
    m', blocked, r := RevokePresent(w, k, m, d);
    FewerBoth(old(w.ours), ours, w.ours);
  }

  /** The same of a grantee and an object that are still there. */
  method RevokePresent(w: World, k: string, m: Grant, d: Grant) returns (m': Grant, blocked: set<string>, r: Outcome)
    requires w.Inv() && w.Right(k, m) && Declarable(d)
    modifies w`acls, w`ours, w`taken, w`statements, w`refused
    ensures w.Inv() && Shrinks(w, k, m') && !r.Dependents? && Within(m', m)
    ensures blocked <= m.privileges - d.privileges - m.options && w.RefusedAt(k) == old(w.RefusedAt(k)) + blocked
    ensures r.Done? ==> m' == EntryAfter(m, d, NO_GRANT)
    ensures w.quiet ==> blocked <= old(AclAt(w.acls, k)).passedOn
    ensures w.quiet && r.Done? ==> RevokedAt(old(AclAt(w.acls, k)), AclAt(w.acls, k), m, m', d, blocked)
    ensures w.reliable ==> r.Done?
  {
    var removed := m.privileges - d.privileges;
    m', blocked, r := RevokeInSteps(w, k, m, removed, m.options - d.options - removed);
    if r.Done? {
      EntryInSteps(m, m', d);
      if w.quiet {
        RevokedInSteps(old(AclAt(w.acls, k)), AclAt(w.acls, k), m, m', d, blocked);
      }
    }
  }

  /** Privileges with a recorded grant option are revoked with CASCADE, the others without. */
  method RevokePrivileges(w: World, k: string, m: Grant, removed: set<string>)
      returns (m': Grant, blocked: set<string>, r: Outcome)
    requires w.Inv() && w.Right(k, m) && removed <= m.privileges
    modifies w`acls, w`ours, w`taken, w`statements, w`refused
    ensures w.Inv() && Shrinks(w, k, m') && !r.Dependents? && Within(m', m)
    ensures blocked <= removed - m.options && w.RefusedAt(k) == old(w.RefusedAt(k)) + blocked
    ensures r.Done? ==> m' == Grant(m.privileges - removed, m.options - removed)
    ensures w.quiet ==> RevokedBut(old(AclAt(w.acls, k)), AclAt(w.acls, k), removed, blocked, r.Done?)
    ensures w.reliable ==> r.Done?
  {
    var r1;
    blocked := {};
    var withOption := removed * m.options;
    m', r1 := RevokeCascading(w, k, m, withOption, Cascade);
    if r1.Crashed? {
      r := r1;
      return;
    }
    ghost var ours := w.ours;
    m', blocked, r := RevokePlain(w, k, m', removed - withOption);
    FewerBoth(old(w.ours), ours, w.ours);
    if r.Done? && !r1.Done? {
      r := Failed;
    }
    if w.quiet && r.Done? {
      RevokedTwice(old(AclAt(w.acls, k)), withOption, Cascade, removed - withOption - blocked, removed - blocked);
    }
  }

  lemma RevokedTwice(a: Acl, x: set<string>, mode: Mode, y: set<string>, both: set<string>)
    requires !mode.OptionOnly? && both == x + y
    ensures Revoked(Revoked(a, x, mode), y, Plain) == Revoked(a, both, Plain)
  {
  }

  /** Recorded grant options that are no longer declared are revoked first. */
  method RevokeInSteps(w: World, k: string, m: Grant, removed: set<string>, optionsOnly: set<string>)
      returns (m': Grant, blocked: set<string>, r: Outcome)
    requires w.Inv() && w.Right(k, m)
    requires removed <= m.privileges && optionsOnly <= m.options - removed
    modifies w`acls, w`ours, w`taken, w`statements, w`refused
    ensures w.Inv() && Shrinks(w, k, m') && !r.Dependents? && Within(m', m)
    ensures blocked <= removed - m.options && w.RefusedAt(k) == old(w.RefusedAt(k)) + blocked
    ensures r.Done? ==> m' == Grant(m.privileges - removed, m.options - optionsOnly - removed)
    ensures w.quiet ==> blocked <= old(AclAt(w.acls, k)).passedOn
    ensures w.quiet && r.Done? ==> AclAt(w.acls, k) == Revoked(Revoked(old(AclAt(w.acls, k)), optionsOnly, OptionOnly),
                                                               removed - blocked, Plain)
    ensures w.reliable ==> r.Done?
  {
    var r1;
    blocked := {};
    m', r1 := RevokeCascading(w, k, m, optionsOnly, OptionOnly);
    if r1.Crashed? {
      r := r1;
      return;
    }
    ghost var ours := w.ours;
    m', blocked, r := RevokePrivileges(w, k, m', removed);
    FewerBoth(old(w.ours), ours, w.ours);
    if r.Done? && !r1.Done? {
      r := Failed;
    }
  }

  // ---------- a pass over the declared grants and the tracked ones ----------

  function GrantedAll(a: Acl, g: Grant): Acl {
    a.(held := a.held + g.privileges, options := a.options + g.options)
  }

  /** Nothing at k has been taken away. */
  ghost predicate Grown(before: Acl, after: Acl) {
    before.held <= after.held && before.options <= after.options
  }

  ghost predicate GrantedOne(before: Acls, after: Acls, p: Planned, done: bool) {
    && (forall k :: k != p.key ==> AclAt(after, k) == AclAt(before, k))
    && Grown(AclAt(before, p.key), AclAt(after, p.key))
    && (done ==> AclAt(after, p.key) == GrantedAll(AclAt(before, p.key), p.added)
                 && (Empty(p.added) || AclAt(before, p.key).present))
  }

  /** The plans so far are carried out, except at the failed keys. */
  ghost predicate GrantedSoFar(before: Acls, after: Acls, plan: seq<Planned>, failed: set<string>) {
    && (forall k :: Grown(AclAt(before, k), AclAt(after, k)))
    && (forall k :: k !in failed ==>
          && AclAt(after, k) == GrantedAll(AclAt(before, k), Added(plan, k))
          && (Empty(Added(plan, k)) || AclAt(before, k).present))
  }

  lemma GrantedNext(before: Acls, now: Acls, after: Acls, plan: seq<Planned>, i: nat, failed: set<string>, done: bool)
    requires i < |plan| && GrantedSoFar(before, now, plan[..i], failed) && GrantedOne(now, after, plan[i], done)
    ensures GrantedSoFar(before, after, plan[..i + 1], if done then failed else failed + {plan[i].key})
  {
    forall k ensures Grown(AclAt(before, k), AclAt(after, k)) {
      assert Grown(AclAt(before, k), AclAt(now, k));
    }
    forall k | k !in (if done then failed else failed + {plan[i].key})
      ensures AclAt(after, k) == GrantedAll(AclAt(before, k), Added(plan[..i + 1], k))
              && (Empty(Added(plan[..i + 1], k)) || AclAt(before, k).present) {
      AddedNext(plan, i, k);
      assert AclAt(now, k) == GrantedAll(AclAt(before, k), Added(plan[..i], k));
    }
  }

  ghost predicate PlanListed(plan: seq<Planned>, ledger: Ledger) {
    forall p <- plan :: Within(p.added, GrantAt(ledger, p.key))
  }

  lemma GrantedFits(before: Acls, now: Acls, after: Acls, plan: seq<Planned>, i: nat, keys: set<string>,
                    failed: set<string>, done: bool)
    requires i < |plan| && PlanFits(plan, before, keys) && GrantedSoFar(before, now, plan[..i], failed)
    requires var p := plan[i];
             p.options <= AclAt(now, p.key).held + p.added.privileges ==> GrantedOne(now, after, p, done)
    ensures GrantedSoFar(before, after, plan[..i + 1], if done then failed else failed + {plan[i].key})
    ensures plan[i].options <= AclAt(now, plan[i].key).held + plan[i].added.privileges
  {
    assert plan[i] in plan && Grown(AclAt(before, plan[i].key), AclAt(now, plan[i].key));
    GrantedNext(before, now, after, plan, i, failed, done);
  }

  lemma GrantedNone(acls: Acls, plan: seq<Planned>)
    ensures GrantedSoFar(acls, acls, plan[..0], {})
  {
  }

  /** Runs the plan p: the grant options first, and the plain grants only after them. at is what the grantee
      holds when the first one gets to the server, late what the ledger does not list of what it adds:
      nothing but privileges that were read to be held and are not held any more. */
  method GrantOne(w: World, p: Planned, ghost keys: set<string>)
      returns (r: Outcome, ghost at: Acl, ghost late: set<string>)
    requires w.Inv() && ReadyOne(p, keys, w.acls, w.taken, w.initial, w.alone)
    requires Within(p.added, GrantAt(w.ledger, p.key))
    modifies w`acls, w`ours, w`taken, w`refused, w`missed, w`statements
    ensures w.Inv() && NothingLost(old(w.acls), w.acls, old(w.taken), w.taken) && !r.Dependents?
    ensures late == {} || late == LateOf(p, at, GrantAt(w.ledger, p.key))
    ensures r.Done? ==> late == LateOf(p, at, GrantAt(w.ledger, p.key))
    ensures late <= w.MissedAt(p.key) <= old(w.MissedAt(p.key)) + late
    ensures forall k :: k != p.key ==> w.MissedAt(k) == old(w.MissedAt(k))
    ensures w.quiet && p.options <= old(AclAt(w.acls, p.key)).held + p.added.privileges ==>
              GrantedOne(old(w.acls), w.acls, p, r.Done?)
    ensures w.quiet ==> at == old(AclAt(w.acls, p.key))
    ensures w.quiet ==> GrantedAt(old(w.acls), w.acls, p, r.Done?)
    // one statement each
    ensures r.Done? ==> w.statements == old(w.statements) + (if p.options == {} then 0 else 1)
                                        + (if p.plain == {} then 0 else 1)
    ensures w.quiet && p.options <= old(AclAt(w.acls, p.key)).held + p.added.privileges ==>
              NoMoreMissed(old(w.missed), w.missed)
    ensures w.reliable ==> r.Done? || r.Failed?
    ensures w.reliable && w.quiet && r.Failed? ==> !old(AclAt(w.acls, p.key)).present
  {
    r, at, late := GrantOptions(w, p, keys);
    ghost var mid, taken, first := w.acls, w.taken, r;
    if r.Done? && p.plain != {} {
      ghost var now, added;
      r, now, added := w.GrantTo(p.key, p.plain, false);
      NothingLostBoth(old(w.acls), mid, w.acls, old(w.taken), taken, w.taken);
    }
    if w.quiet {
      NothingLate(p, at, GrantAt(w.ledger, p.key));
      assert forall k :: SetAt(w.missed, k) == w.MissedAt(k);
      GrantedBoth(old(w.acls), mid, w.acls, p, first, r);
    }
  }

  /** Nothing has changed but what the grantee of p holds, and that includes what p grants when it is done. */
  ghost predicate GrantedAt(before: Acls, after: Acls, p: Planned, done: bool) {
    && (forall k :: k != p.key ==> AclAt(after, k) == AclAt(before, k))
    && AclAt(after, p.key).passedOn == AclAt(before, p.key).passedOn
    && (done ==> p.options + p.plain <= AclAt(after, p.key).held)
  }

  ghost predicate PlainGranted(r: Outcome, before: Acls, after: Acls, p: Planned) {
    var a := AclAt(before, p.key);
    && (after == before || (a.present && after == before[p.key := Granted(a, p.plain, false)]))
    && (r.Done? && p.plain != {} ==> a.present && after == before[p.key := Granted(a, p.plain, false)])
  }

  lemma GrantedBoth(before: Acls, mid: Acls, after: Acls, p: Planned, first: Outcome, r: Outcome)
    requires Formed(p) && OptionsGranted(first, before, mid, p) && PlainGranted(r, mid, after, p)
    requires (r.Done? ==> first.Done?) && (!first.Done? ==> after == mid)
    ensures GrantedAt(before, after, p, r.Done?)
    ensures p.options <= AclAt(before, p.key).held + p.added.privileges ==> GrantedOne(before, after, p, r.Done?)
  {
    var a := AclAt(before, p.key);
    if r.Done? {
      assert AclAt(mid, p.key) == Granted(a, p.options, true);
      assert AclAt(after, p.key) == Granted(AclAt(mid, p.key), p.plain, false);
      assert p.options <= a.held + p.added.privileges ==> a.held + p.options + p.plain == a.held + p.added.privileges;
    }
  }

  method GrantOptions(w: World, p: Planned, ghost keys: set<string>)
      returns (r: Outcome, ghost at: Acl, ghost late: set<string>)
    requires w.Inv() && ReadyOne(p, keys, w.acls, w.taken, w.initial, w.alone)
    requires Within(p.added, GrantAt(w.ledger, p.key))
    modifies w`acls, w`ours, w`taken, w`refused, w`missed, w`statements
    ensures w.Inv() && NothingLost(old(w.acls), w.acls, old(w.taken), w.taken) && !r.Dependents?
    ensures late == {} || late == LateOf(p, at, GrantAt(w.ledger, p.key))
    ensures r.Done? ==> late == LateOf(p, at, GrantAt(w.ledger, p.key))
    ensures late <= w.MissedAt(p.key) <= old(w.MissedAt(p.key)) + late
    ensures forall k :: k != p.key ==> w.MissedAt(k) == old(w.MissedAt(k))
    ensures w.statements == old(w.statements) + if p.options == {} then 0 else 1
    ensures w.reliable ==> r.Done? || r.Failed?
    ensures w.quiet ==> at == old(AclAt(w.acls, p.key)) && OptionsGranted(r, old(w.acls), w.acls, p)
    ensures w.quiet && w.reliable && r.Failed? ==> !at.present
  {
    r, at, late := Done, AclAt(w.acls, p.key), {};
    if p.options != {} {
      ghost var mid, added;
      r, mid, added := w.GrantTo(p.key, p.options, true);
      at := AclAt(mid, p.key);
      late := added - GrantAt(w.ledger, p.key).privileges;
    }
  }

  lemma NothingLate(p: Planned, at: Acl, m: Grant)
    requires Within(p.added, m)
    ensures p.options <= at.held + p.added.privileges ==> LateOf(p, at, m) == {}
  {
  }

  ghost predicate OptionsGranted(r: Outcome, before: Acls, after: Acls, p: Planned) {
    var a := AclAt(before, p.key);
    && (after == before || (a.present && after == before[p.key := Granted(a, p.options, true)]))
    && (r.Done? && p.options != {} ==> a.present && after == before[p.key := Granted(a, p.options, true)])
  }

  /** Of the grant options planned by p, the privileges that were read to be held, are not held when they are
      granted, and are not in the entry m. */
  function LateOf(p: Planned, at: Acl, m: Grant): set<string> {
    p.options * p.held - at.held - m.privileges
  }

  /** Only grants to what is gone failed. */
  ghost predicate Absent(acls: Acls, failed: set<string>, keys: set<string>) {
    forall k <- failed :: k in keys && !AclAt(acls, k).present
  }

  method GrantNext(w: World, plan: seq<Planned>, i: nat, ghost keys: set<string>, ghost before: Acls,
                   ghost failed: set<string>) returns (r: Outcome)
    requires w.Inv() && Ready(plan, keys, w.acls, w.taken, w.initial, w.alone) && PlanListed(plan, w.ledger)
    requires i < |plan|
    requires w.quiet ==> PlanFits(plan, before, keys) && GrantedSoFar(before, w.acls, plan[..i], failed)
    modifies w`acls, w`ours, w`taken, w`refused, w`missed, w`statements
    ensures w.Inv() && Ready(plan, keys, w.acls, w.taken, w.initial, w.alone) && !r.Dependents?
    ensures w.quiet ==>
              GrantedSoFar(before, w.acls, plan[..i + 1], if r.Done? then failed else failed + {plan[i].key})
    ensures w.quiet ==> NoMoreMissed(old(w.missed), w.missed)
    ensures w.reliable ==> r.Done? || r.Failed?
    ensures w.quiet && w.reliable && r.Failed? ==> !old(AclAt(w.acls, plan[i].key)).present
  {
    ghost var now, taken := w.acls, w.taken;
    assert plan[i] in plan;
    ghost var at, late;
    r, at, late := GrantOne(w, plan[i], keys);
    StillReady(plan, keys, now, w.acls, taken, w.taken, w.initial, w.alone);
    if w.quiet {
      GrantedFits(before, now, w.acls, plan, i, keys, failed, r.Done?);
    }
  }

  method GrantPlan(w: World, plan: seq<Planned>, ghost keys: set<string>) returns (failed: set<string>, r: Outcome)
    requires w.Inv() && Ready(plan, keys, w.acls, w.taken, w.initial, w.alone) && PlanListed(plan, w.ledger)
    requires w.quiet ==> PlanFits(plan, w.acls, keys)
    modifies w`acls, w`ours, w`taken, w`refused, w`missed, w`statements
    ensures w.Inv() && (r.Done? || r.Crashed?)
    ensures w.reliable ==> r.Done?
    ensures w.quiet ==> NoMoreMissed(old(w.missed), w.missed)
    ensures w.quiet && r.Done? ==> GrantedSoFar(old(w.acls), w.acls, plan, failed)
    ensures w.quiet && w.reliable ==> Absent(old(w.acls), failed, keys)
  {
    failed := {};
    GrantedNone(w.acls, plan);
    var i := 0;
    while i < |plan|
      invariant i <= |plan| && w.Inv() && Ready(plan, keys, w.acls, w.taken, w.initial, w.alone)
      invariant w.quiet && w.reliable ==> Absent(old(w.acls), failed, keys)
      invariant w.quiet ==> NoMoreMissed(old(w.missed), w.missed)
      invariant w.quiet ==> GrantedSoFar(old(w.acls), w.acls, plan[..i], failed)
    {
      r := GrantNext(w, plan, i, keys, old(w.acls), failed);
      if r.Crashed? {
        return;
      }
      failed := if r.Done? then failed else failed + {plan[i].key};
      i := i + 1;
    }
    assert plan[..i] == plan;
    r := Done;
  }

  function Skipped(skipped: map<string, set<string>>, k: string): set<string> {
    if k in skipped then skipped[k] else {}
  }

  /** What the revoke phase did at k. */
  ghost predicate RevokedAt(before: Acl, after: Acl, l: Grant, l': Grant, d: Grant, skipped: set<string>) {
    && AclAfter(before, after, l, d, NO_GRANT, skipped)
    && (l' == EntryAfter(l, d, NO_GRANT) || (l' == NO_GRANT && !before.present))
    && skipped <= (l.privileges - l.options) * before.passedOn
  }

  /** The revoke phase is over, except for the keys in rest; nothing is claimed at the failed keys. */
  ghost predicate RevokedSoFar(before: Acls, after: Acls, tracked: Ledger, now: Ledger, desired: seq<Desired>,
                               skipped: map<string, set<string>>, failed: set<string>, rest: set<string>) {
    && now.Keys <= tracked.Keys && failed <= tracked.Keys
    && (forall k :: k in rest || k !in tracked ==>
          AclAt(after, k) == AclAt(before, k) && GrantAt(now, k) == GrantAt(tracked, k) && Skipped(skipped, k) == {})
    && (forall k <- tracked :: k !in rest && k !in failed ==>
          RevokedAt(AclAt(before, k), AclAt(after, k), tracked[k], GrantAt(now, k), WantAt(desired, k),
                    Skipped(skipped, k)))
  }

  ghost predicate NothingToRevoke(tracked: Ledger, desired: seq<Desired>) {
    forall k <- tracked :: Within(tracked[k], WantAt(desired, k))
  }

  lemma RevokedNext(before: Acls, now: Acls, after: Acls, tracked: Ledger, l: Ledger, l': Ledger, desired: seq<Desired>,
                    skipped: map<string, set<string>>, skipped': map<string, set<string>>, failed: set<string>,
                    rest: set<string>, k: string, done: bool)
    requires k in rest && rest <= tracked.Keys
    requires RevokedSoFar(before, now, tracked, l, desired, skipped, failed, rest)
    requires forall j :: j != k ==> AclAt(after, j) == AclAt(now, j) && GrantAt(l', j) == GrantAt(l, j)
    requires forall j :: j != k ==> Skipped(skipped', j) == Skipped(skipped, j)
    requires done ==> RevokedAt(AclAt(before, k), AclAt(after, k), tracked[k], GrantAt(l', k), WantAt(desired, k),
                                Skipped(skipped', k))
    requires l'.Keys <= tracked.Keys
    ensures RevokedSoFar(before, after, tracked, l', desired, skipped', if done then failed else failed + {k},
                         rest - {k})
  {
  }

  /** The same state and entries: nothing was to be revoked. */
  ghost predicate Untouched(before: Acls, after: Acls, tracked: Ledger, l: Ledger) {
    after == before && forall k :: GrantAt(l, k) == GrantAt(tracked, k)
  }

  ghost predicate AllRight(w: World, tracked: Ledger, l: Ledger)
    reads w`ours, w`refused, w`missed
  {
    forall k {:trigger w.Right(k, GrantAt(l, k))} :: k in tracked ==> w.Right(k, GrantAt(l, k))
  }

  function Updated(l: Ledger, k: string, m: Grant): (l': Ledger)
    ensures GrantAt(l', k) == m && forall j :: j != k ==> GrantAt(l', j) == GrantAt(l, j)
    ensures l'.Keys <= l.Keys + {k}
  {
    if Empty(m) then l - {k} else l[k := m]
  }

  method RevokeKey(w: World, k: string, tracked: Ledger, l: Ledger, d: Grant)
      returns (l': Ledger, blocked: set<string>, r: Outcome)
    requires w.Inv() && Declarable(d) && AllRight(w, tracked, l) && k in tracked && GrantAt(l, k) == tracked[k]
    modifies w`acls, w`ours, w`taken, w`statements, w`refused
    ensures w.Inv() && AllRight(w, tracked, l') && !r.Dependents?
    ensures l'.Keys <= l.Keys + {k} && forall j :: j != k ==> GrantAt(l', j) == GrantAt(l, j)
    ensures Within(GrantAt(l', k), tracked[k])
    ensures w.quiet ==> w.Only(k)
    ensures w.quiet && r.Done? ==>
              RevokedAt(old(AclAt(w.acls, k)), AclAt(w.acls, k), tracked[k], GrantAt(l', k), d, blocked)
    ensures Within(tracked[k], d) ==>
              r.Done? && w.statements == old(w.statements) && w.acls == old(w.acls) && GrantAt(l', k) == GrantAt(l, k)
    ensures w.reliable ==> r.Done?
  {
    var m;
    m, blocked, r := RevokeRemoved(w, k, tracked[k], d);
    l' := Updated(l, k, m);
    forall j <- tracked ensures w.Right(j, GrantAt(l', j)) {
      assert old(w.Right(j, GrantAt(l, j)));
    }
  }

  method RevokeNext(w: World, k: string, tracked: Ledger, l: Ledger, d: Grant, skipped: map<string, set<string>>)
      returns (l': Ledger, skipped': map<string, set<string>>, r: Outcome)
    requires w.Inv() && Declarable(d) && AllRight(w, tracked, l) && k in tracked && GrantAt(l, k) == tracked[k]
    requires k !in skipped
    modifies w`acls, w`ours, w`taken, w`statements, w`refused
    ensures w.Inv() && AllRight(w, tracked, l') && !r.Dependents?
    ensures l'.Keys <= l.Keys + {k} && Within(GrantAt(l', k), tracked[k])
    ensures forall j :: j != k ==> GrantAt(l', j) == GrantAt(l, j) && Skipped(skipped', j) == Skipped(skipped, j)
    ensures skipped'.Keys <= skipped.Keys + {k}
    ensures w.quiet ==> forall j :: j != k ==> AclAt(w.acls, j) == old(AclAt(w.acls, j))
    ensures w.quiet && r.Done? ==> RevokedAt(old(AclAt(w.acls, k)), AclAt(w.acls, k), tracked[k], GrantAt(l', k), d,
                                             Skipped(skipped', k))
    ensures Within(tracked[k], d) ==>
              r.Done? && w.statements == old(w.statements) && w.acls == old(w.acls) && GrantAt(l', k) == GrantAt(l, k)
    ensures w.reliable ==> r.Done?
  {
    var blocked;
    l', blocked, r := RevokeKey(w, k, tracked, l, d);
    skipped' := if blocked == {} then skipped else skipped[k := blocked];
  }

  /** Entries have only become less, those in rest not yet. */
  ghost predicate Shrunk(tracked: Ledger, l: Ledger, rest: set<string>)
    requires rest <= tracked.Keys
  {
    l.Keys <= tracked.Keys && Fewer(tracked, l) && forall k <- rest :: GrantAt(l, k) == tracked[k]
  }

  lemma ShrunkNext(tracked: Ledger, l: Ledger, l': Ledger, rest: set<string>, k: string)
    requires rest <= tracked.Keys && k in rest && Shrunk(tracked, l, rest) && l'.Keys <= l.Keys + {k}
    requires Within(GrantAt(l', k), tracked[k]) && forall j :: j != k ==> GrantAt(l', j) == GrantAt(l, j)
    ensures Shrunk(tracked, l', rest - {k})
  {
    forall j ensures Within(GrantAt(l', j), GrantAt(tracked, j)) {
      assert j != k ==> Within(GrantAt(l, j), GrantAt(tracked, j));
    }
  }

  method RevokeAll(w: World, tracked: Ledger, desired: seq<Desired>)
      returns (after: Ledger, skipped: map<string, set<string>>, failed: set<string>, r: Outcome)
    requires w.Inv() && (forall d <- desired :: Declarable(d.grant)) && AllRight(w, tracked, tracked)
    modifies w`acls, w`ours, w`taken, w`statements, w`refused
    ensures w.Inv() && (r.Done? || r.Crashed?)
    ensures AllRight(w, tracked, after) && after.Keys <= tracked.Keys && Fewer(tracked, after)
    ensures w.quiet && r.Done? ==> RevokedSoFar(old(w.acls), w.acls, tracked, after, desired, skipped, failed, {})
    ensures NothingToRevoke(tracked, desired) ==>
              r.Done? && w.statements == old(w.statements) && Untouched(old(w.acls), w.acls, tracked, after)
    ensures w.reliable ==> r.Done? && failed == {}
  {
    after, skipped, failed := tracked, map[], {};
    var rest := tracked.Keys;
    while rest != {}
      invariant rest <= tracked.Keys && w.Inv() && (w.reliable ==> failed == {})
      invariant AllRight(w, tracked, after) && Shrunk(tracked, after, rest) && skipped.Keys !! rest
      invariant w.quiet ==> RevokedSoFar(old(w.acls), w.acls, tracked, after, desired, skipped, failed, rest)
      invariant NothingToRevoke(tracked, desired) ==>
                  w.statements == old(w.statements) && Untouched(old(w.acls), w.acls, tracked, after)
      decreases rest
    {
      var k :| k in rest;
      ghost var now, l, skippedBefore := w.acls, after, skipped;
      after, skipped, r := RevokeNext(w, k, tracked, after, WantAt(desired, k), skipped);
      if r.Crashed? {
        return;
      }
      ShrunkNext(tracked, l, after, rest, k);
      if w.quiet {
        RevokedNext(old(w.acls), now, w.acls, tracked, l, after, desired, skippedBefore, skipped, failed, rest, k,
                    r.Done?);
      }
      if !r.Done? {
        failed := failed + {k};
      }
      rest := rest - {k};
    }
    r := Done;
  }

  ghost predicate Intends(tracked: Ledger, plan: seq<Planned>, intended: Ledger) {
    forall k :: GrantAt(intended, k) == Merge(GrantAt(tracked, k), Added(plan, k))
  }

  ghost predicate Sound(acls: Acls) {
    forall k :: WellFormed(AclAt(acls, k))
  }

  lemma InvSound(w: World)
    requires w.Inv()
    ensures Sound(w.acls)
  {
    forall k ensures WellFormed(AclAt(w.acls, k)) {
      assert w.KeyOk(k);
    }
  }

  lemma IntendsNext(tracked: Ledger, plan: seq<Planned>, i: nat, intended: Ledger, intended': Ledger)
    requires i < |plan| && Intends(tracked, plan[..i], intended)
    requires intended' == intended[plan[i].key := Merge(GrantAt(intended, plan[i].key), plan[i].added)]
    ensures Intends(tracked, plan[..i + 1], intended')
  {
    forall k ensures GrantAt(intended', k) == Merge(GrantAt(tracked, k), Added(plan[..i + 1], k)) {
      AddedNext(plan, i, k);
    }
  }

  /** What is about to be recorded: the tracked grants and the plan's. */
  method Intend(tracked: Ledger, plan: seq<Planned>, ghost keys: set<string>) returns (intended: Ledger)
    requires forall p <- plan :: p.key in keys
    ensures Intends(tracked, plan, intended)
    ensures tracked.Keys <= intended.Keys <= tracked.Keys + keys
  {
    intended := tracked;
    for i := 0 to |plan|
      invariant Intends(tracked, plan[..i], intended)
      invariant tracked.Keys <= intended.Keys <= tracked.Keys + keys
    {
      ghost var before := intended;
      intended := intended[plan[i].key := Merge(GrantAt(intended, plan[i].key), plan[i].added)];
      IntendsNext(tracked, plan, i, before, intended);
    }
    assert plan[..|plan|] == plan;
  }

  lemma {:induction false} AddedIsNew(plan: seq<Planned>, keys: set<string>, acls: Acls, taken: Sets, initial: Acls,
                                      alone: bool, k: string)
    requires Ready(plan, keys, acls, taken, initial, alone)
    ensures alone ==> Unlisted(AclAt(initial, k), Added(plan, k))
    ensures k !in keys ==> Added(plan, k) == NO_GRANT
  {
    if plan != [] {
      assert ReadyOne(plan[|plan| - 1], keys, acls, taken, initial, alone);
      AddedIsNew(plan[..|plan| - 1], keys, acls, taken, initial, alone, k);
    }
  }

  /** The ledger in the status consists of these two parts. */
  ghost predicate Consists(ledger: Ledger, tracked: Ledger, kept: Ledger) {
    tracked.Keys !! kept.Keys && forall k :: GrantAt(ledger, k) == GrantAt(Record(tracked, kept), k)
  }

  /** What the pass did at key k. */
  ghost predicate DidAt(before: Acl, after: Acl, l: Grant, l': Grant, d: Grant, over: bool, skipped: set<string>) {
    var new_ := if over then NO_GRANT else New(before, d);
    && AclAfter(before, after, l, d, new_, skipped)
    && (l' == EntryAfter(l, d, new_) || (over && l' == NO_GRANT && !before.present))
    && skipped <= (l.privileges - l.options) * before.passedOn
  }

  ghost predicate Did(before: Acls, after: Acls, l: Ledger, l': Ledger, desired: seq<Desired>, over: bool,
                      skipped: map<string, set<string>>, failed: set<string>) {
    forall k :: k !in failed ==>
      DidAt(AclAt(before, k), AclAt(after, k), GrantAt(l, k), GrantAt(l', k), WantAt(desired, k), over,
            Skipped(skipped, k))
  }

  lemma DidBoth(a: Acl, b: Acl, c: Acl, l: Grant, i: Grant, l': Grant, d: Grant, over: bool, skipped: set<string>)
    requires WellFormed(a) && Declarable(d)
    requires var new_ := if over then NO_GRANT else New(a, d);
             && i == Merge(l, new_) && b == GrantedAll(a, new_) && (Empty(new_) || a.present)
    requires RevokedAt(b, c, i, l', d, skipped)
    ensures DidAt(a, c, l, l', d, over, skipped)
  {
    assert d.options <= d.privileges;
  }

  lemma RevokedEverywhere(mid: Acls, after: Acls, intended: Ledger, l': Ledger, desired: seq<Desired>,
                          skipped: map<string, set<string>>, failed: set<string>, k: string)
    requires RevokedSoFar(mid, after, intended, l', desired, skipped, failed, {}) && k !in failed
    ensures RevokedAt(AclAt(mid, k), AclAt(after, k), GrantAt(intended, k), GrantAt(l', k), WantAt(desired, k),
                      Skipped(skipped, k))
  {
    if k !in intended {
      assert AclAt(after, k) == AclAt(mid, k) && GrantAt(l', k) == NO_GRANT;
    }
  }

  lemma DidEverywhere(before: Acls, mid: Acls, after: Acls, l: Ledger, intended: Ledger, l': Ledger,
                      desired: seq<Desired>,
                      over: bool, plan: seq<Planned>, skipped: map<string, set<string>>, f1: set<string>,
                          f2: set<string>, f3: set<string>)
    requires Sound(before) && Declared(desired)
    requires PlanIsFull(plan, before, if over then [] else desired, f1) && GrantedSoFar(before, mid, plan, f2)
    requires Intends(l, plan, intended)
    requires RevokedSoFar(mid, after, intended, l', desired, skipped, f3, {})
    ensures Did(before, after, l, l', desired, over, skipped, f1 + f2 + f3)
  {
    forall k | k !in f1 + f2 + f3
      ensures DidAt(AclAt(before, k), AclAt(after, k), GrantAt(l, k), GrantAt(l', k), WantAt(desired, k), over,
                    Skipped(skipped, k)) {
      var new_ := if over then NO_GRANT else New(AclAt(before, k), WantAt(desired, k));
      assert Added(plan, k) == new_;
      assert AclAt(mid, k) == GrantedAll(AclAt(before, k), Added(plan, k));
      var i := GrantAt(intended, k);
      RevokedEverywhere(mid, after, intended, l', desired, skipped, f3, k);
      DidBoth(AclAt(before, k), AclAt(mid, k), AclAt(after, k), GrantAt(l, k), i, GrantAt(l', k), WantAt(desired, k),
              over, Skipped(skipped, k));
    }
  }

  /** The intended ledger may be recorded before anything is granted. */
  lemma MayRecordIntended(w: World, tracked: Ledger, kept: Ledger, plan: seq<Planned>, intended: Ledger,
                          keys: set<string>)
    requires w.Inv() && Consists(w.ledger, tracked, kept) && keys !! kept.Keys && Intends(tracked, plan, intended)
    requires Ready(plan, keys, w.acls, w.taken, w.initial, w.alone)
    ensures w.MayRecord(Record(intended, kept)) && PlanListed(plan, Record(intended, kept))
  {
    forall k ensures w.Right(k, GrantAt(Record(intended, kept), k)) {
      assert w.KeyOk(k) && GrantAt(w.ledger, k) == GrantAt(Record(tracked, kept), k);
      AddedIsNew(plan, keys, w.acls, w.taken, w.initial, w.alone, k);
    }
    forall p <- plan ensures Within(p.added, GrantAt(Record(intended, kept), p.key)) {
      AddedHas(plan, p);
    }
  }

  lemma MayRecordAfter(w: World, tracked: Ledger, kept: Ledger, after: Ledger)
    requires w.Inv() && Consists(w.ledger, tracked, kept) && AllRight(w, tracked, after) && after.Keys <= tracked.Keys
    ensures w.MayRecord(Record(after, kept))
  {
    forall k ensures w.Right(k, GrantAt(Record(after, kept), k)) {
      assert w.KeyOk(k) && GrantAt(w.ledger, k) == GrantAt(Record(tracked, kept), k);
    }
  }

  lemma TrackedIsRight(w: World, tracked: Ledger, kept: Ledger)
    requires w.Inv() && Consists(w.ledger, tracked, kept)
    ensures AllRight(w, tracked, tracked)
  {
    forall k <- tracked ensures w.Right(k, GrantAt(tracked, k)) {
      assert w.KeyOk(k) && GrantAt(w.ledger, k) == GrantAt(Record(tracked, kept), k);
    }
  }

  ghost predicate Declared(desired: seq<Desired>) {
    forall d <- desired :: Declarable(d.grant)
  }

  function Keys(desired: seq<Desired>): set<string> {
    set d <- desired :: d.key
  }

  /** Whatever was recorded on the way, or tried to be, has entries for these keys only. */
  ghost predicate RecordedOnly(before: seq<Ledger>, after: seq<Ledger>, keys: set<string>) {
    && |after| >= |before| && after[..|before|] == before
    && forall n :: |before| <= n < |after| ==> after[n].Keys <= keys
  }

  lemma RecordedBoth(before: seq<Ledger>, mid: seq<Ledger>, m: Ledger, keys: set<string>)
    requires RecordedOnly(before, mid, keys) && m.Keys <= keys
    ensures RecordedOnly(before, mid + [m], keys)
  {
    assert (mid + [m])[..|before|] == mid[..|before|];
  }

  /** Writes m; what could be recorded before can be recorded after. */
  method SaveOver(w: World, m: Ledger, ghost before: Ledger) returns (r: Outcome)
    requires w.Inv() && w.MayRecord(m) && w.MayRecord(before)
    modifies w`acls, w`ours, w`taken, w`ledger, w`history
    ensures w.Inv() && w.MayRecord(before) && NothingLost(old(w.acls), w.acls, old(w.taken), w.taken)
    ensures !r.Dependents? && w.history == old(w.history) + [m]
    ensures w.ledger == m || (!r.Done? && w.ledger == old(w.ledger))
    ensures w.reliable ==> r == if w.accepts(m) then Done else Failed
    ensures w.reliable && r.Failed? ==> w.ledger == old(w.ledger)
    ensures w.quiet ==> w.acls == old(w.acls)
  {
    r := w.Save(m);
    forall k ensures w.Right(k, GrantAt(before, k)) {
      assert old(w.Right(k, GrantAt(before, k))) && Within(GrantAt(w.ours, k), old(GrantAt(w.ours, k)));
    }
  }

  /** Records what is about to be granted, and then grants it. */
  method GrantMissing(w: World, tracked: Ledger, kept: Ledger, plan: seq<Planned>, keys: set<string>)
      returns (tracked': Ledger, failed: set<string>, r: Outcome)
    requires w.Inv() && Consists(w.ledger, tracked, kept) && keys !! kept.Keys
    requires Ready(plan, keys, w.acls, w.taken, w.initial, w.alone) && (w.quiet ==> PlanFits(plan, w.acls, keys))
    modifies w`acls, w`ours, w`taken, w`refused, w`missed, w`statements, w`ledger, w`history
    ensures w.Inv() && !r.Dependents?
    ensures tracked.Keys <= tracked'.Keys <= tracked.Keys + keys
    ensures r.Done? ==> Consists(w.ledger, tracked', kept) && Intends(tracked, plan, tracked')
    // without a record, no statement
    ensures r.Failed? ==> w.statements == old(w.statements) && w.MayRecord(Record(tracked, kept)) && tracked' == tracked
    ensures plan == [] ==> r.Done? && tracked' == tracked && w.acls == old(w.acls) && w.statements == old(w.statements)
                           && w.ledger == old(w.ledger) && w.history == old(w.history)
    ensures RecordedOnly(old(w.history), w.history, tracked.Keys + kept.Keys + keys)
    ensures w.quiet && r.Done? ==> GrantedSoFar(old(w.acls), w.acls, plan, failed)
    ensures w.quiet ==> NoMoreMissed(old(w.missed), w.missed)
    ensures w.quiet && r.Failed? ==> w.acls == old(w.acls)
    ensures w.reliable && r.Failed? ==> w.ledger == old(w.ledger)
    ensures w.reliable ==> (r.Done? || r.Failed?)
                           && (AcceptsAll(w.accepts, tracked.Keys + kept.Keys + keys) ==> r.Done?)
    ensures w.reliable && w.quiet ==> Absent(old(w.acls), failed, keys)
  {
    tracked', failed, r := tracked, {}, Done;
    if plan == [] {
      GrantedNone(w.acls, plan);
      return;
    }
    tracked', r := RecordIntended(w, tracked, kept, plan, keys);
    if r.Done? {
      failed, r := GrantPlan(w, plan, keys);
    }
  }

  method RecordIntended(w: World, tracked: Ledger, kept: Ledger, plan: seq<Planned>, keys: set<string>)
      returns (tracked': Ledger, r: Outcome)
    requires w.Inv() && Consists(w.ledger, tracked, kept) && keys !! kept.Keys
    requires Ready(plan, keys, w.acls, w.taken, w.initial, w.alone)
    modifies w`acls, w`ours, w`taken, w`ledger, w`history
    ensures w.Inv() && !r.Dependents? && Ready(plan, keys, w.acls, w.taken, w.initial, w.alone)
    ensures tracked.Keys <= tracked'.Keys <= tracked.Keys + keys
    ensures r.Done? ==> Consists(w.ledger, tracked', kept) && Intends(tracked, plan, tracked')
                        && PlanListed(plan, w.ledger)
    ensures !r.Done? ==> w.MayRecord(Record(tracked, kept)) && tracked' == tracked
    ensures RecordedOnly(old(w.history), w.history, tracked.Keys + kept.Keys + keys)
    ensures w.reliable && r.Failed? ==> w.ledger == old(w.ledger)
    ensures w.reliable ==> (r.Done? || r.Failed?)
                           && (AcceptsAll(w.accepts, tracked.Keys + kept.Keys + keys) ==> r.Done?)
    ensures w.quiet ==> w.acls == old(w.acls)
  {
    var intended := Intend(tracked, plan, keys);
    MayRecordIntended(w, tracked, kept, plan, intended, keys);
    var m := Record(intended, kept);
    RecordedBoth(w.history, w.history, m, tracked.Keys + kept.Keys + keys);
    TrackedIsRight(w, tracked, kept);
    MayRecordAfter(w, tracked, kept, tracked);
    ghost var acls, taken := w.acls, w.taken;
    r := SaveOver(w, m, Record(tracked, kept));
    StillReady(plan, keys, acls, w.acls, taken, w.taken, w.initial, w.alone);
    tracked' := if r.Done? then intended else tracked;
  }

  /** The API takes every ledger with these keys. */
  ghost predicate AcceptsAll(accepts: Ledger -> bool, keys: set<string>) {
    forall m: Ledger :: m.Keys <= keys ==> accepts(m)
  }

  /** The tracked and the declared keys are more than the ledger may hold. */
  predicate TooMany(limit: int, keys: set<string>) {
    limit > 0 && |keys| > limit
  }

  function Recordable(managed: Ledger, kept: Ledger, desired: seq<Desired>, over: bool): set<string> {
    managed.Keys + kept.Keys + if over then {} else Keys(desired)
  }

  /** One pass of the engine. managed are the entries it tracks, kept those it leaves alone. */
  method Apply(w: World, desired: seq<Desired>, managed: Ledger, kept: Ledger, limit: int)
      returns (after: Ledger, skipped: map<string, set<string>>, failed: set<string>, over: bool, r: Outcome)
    requires w.Inv() && Declared(desired) && Consists(w.ledger, managed, kept) && Keys(desired) !! kept.Keys
    modifies w`acls, w`ours, w`taken, w`refused, w`missed, w`statements, w`ledger, w`history
    ensures w.Inv() && !r.Dependents?
    ensures !r.Crashed? ==> w.MayRecord(Record(after, kept))
    // the limit
    ensures over <==> limit > 0 && |managed.Keys + Keys(desired)| > limit
    ensures !r.Crashed? ==> Record(after, kept).Keys <= Recordable(managed, kept, desired, over)
    ensures RecordedOnly(old(w.history), w.history, Recordable(managed, kept, desired, over))
    ensures r.Done? ==> Fewer(w.ledger, Record(after, kept))
    // without a record, no statement; and one that fits is written when calls succeed
    ensures r.Failed? ==> after == managed && w.statements == old(w.statements)
    ensures w.reliable && r.Failed? ==> w.ledger == old(w.ledger)
    ensures w.reliable ==> (r.Done? || r.Failed?)
                           && (AcceptsAll(w.accepts, Recordable(managed, kept, desired, over)) ==> r.Done?)
    // what it achieves undisturbed, key by key
    ensures w.quiet && r.Done? && Distinct(desired) ==>
              Did(old(w.acls), w.acls, managed, after, desired, over, skipped, failed)
    ensures w.quiet ==> NoMoreMissed(old(w.missed), w.missed)
    ensures w.quiet && r.Failed? ==> w.acls == old(w.acls)
    ensures w.quiet && NothingMissing(desired, old(w.acls)) && NothingToRevoke(managed, desired) ==>
              w.statements == old(w.statements) && w.history == old(w.history) && w.ledger == old(w.ledger)
              && Untouched(old(w.acls), w.acls, managed, after)
    ensures w.quiet && w.reliable ==> Absent(old(w.acls), failed, Keys(desired))
  {
    over := TooMany(limit, managed.Keys + Keys(desired));
    assert Keys([]) == {};
    after, skipped, failed, r := GrantAndRevoke(w, if over then [] else desired, desired, managed, kept, over);
  }

  method GrantAndRevoke(w: World, grantable: seq<Desired>, desired: seq<Desired>, managed: Ledger, kept: Ledger,
                        ghost over: bool)
      returns (after: Ledger, skipped: map<string, set<string>>, failed: set<string>, r: Outcome)
    requires w.Inv() && Declared(desired) && Consists(w.ledger, managed, kept) && Keys(desired) !! kept.Keys
    requires grantable == if over then [] else desired
    modifies w`acls, w`ours, w`taken, w`refused, w`missed, w`statements, w`ledger, w`history
    ensures w.Inv() && !r.Dependents?
    ensures !r.Crashed? ==> w.MayRecord(Record(after, kept))
    ensures after.Keys <= managed.Keys + Keys(grantable)
    ensures RecordedOnly(old(w.history), w.history, managed.Keys + kept.Keys + Keys(grantable))
    ensures r.Done? ==> Fewer(w.ledger, Record(after, kept))
    ensures r.Failed? ==> after == managed && w.statements == old(w.statements)
    ensures w.reliable && r.Failed? ==> w.ledger == old(w.ledger)
    ensures w.reliable ==> (r.Done? || r.Failed?)
                           && (AcceptsAll(w.accepts, managed.Keys + kept.Keys + Keys(grantable)) ==> r.Done?)
    ensures w.quiet && r.Done? && Distinct(desired) ==>
              Did(old(w.acls), w.acls, managed, after, desired, over, skipped, failed)
    ensures w.quiet ==> NoMoreMissed(old(w.missed), w.missed)
    ensures w.quiet && r.Failed? ==> w.acls == old(w.acls)
    ensures w.quiet && NothingMissing(desired, old(w.acls)) && NothingToRevoke(managed, desired) ==>
              w.statements == old(w.statements) && w.history == old(w.history) && w.ledger == old(w.ledger)
              && Untouched(old(w.acls), w.acls, managed, after)
    ensures w.quiet && w.reliable ==> Absent(old(w.acls), failed, Keys(desired))
  {
    InvSound(w);
    skipped := map[];
    var tracked, f12, f3;
    ghost var plan, f1, f2;
    tracked, f12, plan, f1, f2, r := RecordAndGrant(w, grantable, managed, kept);
    failed := f12;
    if !r.Done? {
      after := managed;
      return;
    }
    ghost var mid := w.acls;
    after, skipped, f3, r := RevokeTracked(w, tracked, kept, desired);
    failed := failed + f3;
    assert w.reliable ==> failed == f12;
    if w.quiet && r.Done? && Distinct(desired) {
      DidEverywhere(old(w.acls), mid, w.acls, managed, tracked, after, desired, over, plan, skipped, f1, f2, f3);
    }
  }

  lemma FewerRecorded(ledger: Ledger, tracked: Ledger, kept: Ledger, after: Ledger)
    requires Consists(ledger, tracked, kept) && Fewer(tracked, after)
    ensures Fewer(ledger, Record(after, kept))
  {
    forall k ensures Within(GrantAt(Record(after, kept), k), GrantAt(ledger, k)) {
      assert GrantAt(ledger, k) == GrantAt(Record(tracked, kept), k) && Within(GrantAt(after, k), GrantAt(tracked, k));
    }
  }

  /** The second half of a pass; what remains tracked may be recorded. */
  method RevokeTracked(w: World, tracked: Ledger, kept: Ledger, desired: seq<Desired>)
      returns (after: Ledger, skipped: map<string, set<string>>, failed: set<string>, r: Outcome)
    requires w.Inv() && Declared(desired) && Consists(w.ledger, tracked, kept)
    modifies w`acls, w`ours, w`taken, w`statements, w`refused
    ensures w.Inv() && (r.Done? || r.Crashed?)
    ensures r.Done? ==> w.MayRecord(Record(after, kept))
    ensures after.Keys <= tracked.Keys && Fewer(w.ledger, Record(after, kept))
    ensures w.quiet && r.Done? ==> RevokedSoFar(old(w.acls), w.acls, tracked, after, desired, skipped, failed, {})
    ensures NothingToRevoke(tracked, desired) ==>
              r.Done? && w.statements == old(w.statements) && Untouched(old(w.acls), w.acls, tracked, after)
    ensures w.reliable ==> r.Done? && failed == {}
  {
    TrackedIsRight(w, tracked, kept);
    after, skipped, failed, r := RevokeAll(w, tracked, desired);
    MayRecordAfter(w, tracked, kept, after);
    FewerRecorded(w.ledger, tracked, kept, after);
  }

  /** The first half of a pass: planning, recording and granting. */
  method RecordAndGrant(w: World, grantable: seq<Desired>, managed: Ledger, kept: Ledger)
      returns (tracked: Ledger, failed: set<string>, ghost plan: seq<Planned>, ghost f1: set<string>,
               ghost f2: set<string>, r: Outcome)
    requires w.Inv() && Declared(grantable) && Consists(w.ledger, managed, kept) && Keys(grantable) !! kept.Keys
    modifies w`acls, w`ours, w`taken, w`refused, w`missed, w`statements, w`ledger, w`history
    ensures w.Inv() && !r.Dependents? && failed == f1 + f2
    ensures managed.Keys <= tracked.Keys <= managed.Keys + Keys(grantable)
    ensures RecordedOnly(old(w.history), w.history, managed.Keys + kept.Keys + Keys(grantable))
    ensures r.Done? ==> Consists(w.ledger, tracked, kept) && Intends(managed, plan, tracked)
    ensures r.Failed? ==> w.statements == old(w.statements) && w.MayRecord(Record(managed, kept))
    ensures w.reliable && r.Failed? ==> w.ledger == old(w.ledger)
    ensures w.reliable ==> (r.Done? || r.Failed?)
                           && (AcceptsAll(w.accepts, managed.Keys + kept.Keys + Keys(grantable)) ==> r.Done?)
    ensures w.quiet && r.Done? ==> GrantedSoFar(old(w.acls), w.acls, plan, f2)
    ensures w.quiet && r.Done? && Distinct(grantable) ==> PlanIsFull(plan, old(w.acls), grantable, f1)
    ensures w.quiet ==> NoMoreMissed(old(w.missed), w.missed)
    ensures w.quiet && r.Failed? ==> w.acls == old(w.acls)
    ensures w.quiet && NothingMissing(grantable, old(w.acls)) ==>
              (r.Done? || r.Crashed?) && w.statements == old(w.statements) && w.history == old(w.history)
                  && w.ledger == old(w.ledger)
              && w.acls == old(w.acls) && tracked == managed
    ensures w.quiet && w.reliable ==> Absent(old(w.acls), failed, Keys(grantable))
  {
    tracked, f2 := managed, {};
    var p, planFailures, grantFailures;
    p, planFailures, r := MakePlan(w, grantable);
    plan, f1, failed := p, planFailures, planFailures;
    if r.Crashed? {
      return;
    }
    tracked, grantFailures, r := GrantMissing(w, managed, kept, p, Keys(grantable));
    f2, failed := grantFailures, failed + grantFailures;
  }
}
