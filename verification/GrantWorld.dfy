/** What the grant engine acts on: the privileges grantees hold from the owners of objects, and the
    ledger in the resource's status. Any statement and any status write may fail, and a failed one
    may or may not have been applied; the operator may crash at any of them, and others may change
    privileges before each of them. */
module GrantWorld {

  /** Privileges with (a subset of) them with grant option: a declared grant, or a ledger entry. */
  datatype Grant = Grant(privileges: set<string>, options: set<string>)

  const NO_GRANT := Grant({}, {})

  predicate Empty(g: Grant) {
    g.privileges == {} && g.options == {}
  }

  function Merge(a: Grant, b: Grant): Grant {
    Grant(a.privileges + b.privileges, a.options + b.options)
  }

  predicate Within(a: Grant, b: Grant) {
    a.privileges <= b.privileges && a.options <= b.options
  }

  type Ledger = map<string, Grant>

  function GrantAt(m: Ledger, k: string): Grant {
    if k in m then m[k] else NO_GRANT
  }

  /** A ledger holds no empty entries. */
  ghost predicate Tidy(m: Ledger) {
    forall k <- m :: !Empty(m[k])
  }

  /** What one grantee holds on one object from the object's owner. passedOn are the privileges it
      has granted on; present is false once the object or the grantee is gone. */
  datatype Acl = Acl(present: bool, held: set<string>, options: set<string>, passedOn: set<string>)

  type Acls = map<string, Acl>

  function AclAt(m: Acls, k: string): Acl {
    if k in m then m[k] else Acl(false, {}, {}, {})
  }

  predicate WellFormed(a: Acl) {
    a.passedOn <= a.options <= a.held && (!a.present ==> a.held == {})
  }

  datatype Mode = Plain | Cascade | OptionOnly

  function Granted(a: Acl, privileges: set<string>, withOption: bool): Acl {
    a.(held := a.held + privileges, options := if withOption then a.options + privileges else a.options)
  }

  /** What a GRANT adds. */
  function Missing(a: Acl, privileges: set<string>, withOption: bool): Grant {
    Grant(privileges - a.held, if withOption then privileges - a.options else {})
  }

  function Revoked(a: Acl, privileges: set<string>, mode: Mode): Acl {
    a.(held := if mode.OptionOnly? then a.held else a.held - privileges,
       options := a.options - privileges,
       passedOn := a.passedOn - privileges)
  }

  datatype Outcome = Done | Dependents | Failed | Crashed

  // ---------- the promises, key by key ----------

  /** Everything pgop's own statements put there is in the ledger m, or is excused. */
  ghost predicate Covered(ours: Grant, excused: set<string>, m: Grant) {
    ours.privileges <= m.privileges + excused && ours.options <= m.options
  }

  ghost predicate StillHeld(ours: Grant, a: Acl) {
    ours.privileges <= a.held && ours.options <= a.options
  }

  /** What the grantee held at the start is held, and m does not list it. */
  ghost predicate Kept(initial: Acl, a: Acl) {
    initial.held <= a.held && initial.options <= a.options && initial.present == a.present
  }

  ghost predicate Unlisted(initial: Acl, m: Grant) {
    initial.held !! m.privileges && initial.options !! m.options
  }

  ghost predicate Listed(initial: Acl, ours: Grant, excused: set<string>, m: Grant, alone: bool) {
    Covered(ours, excused, m) && (alone ==> Unlisted(initial, m))
  }

  ghost predicate HeldOk(a: Acl, initial: Acl, ours: Grant, alone: bool) {
    && WellFormed(a) && WellFormed(initial)
    && StillHeld(ours, a)
    && (alone ==> Kept(initial, a))
  }

  /** The privileges that miss the ledger m: those so far, unless they are granted anew, and what is added
      and not listed. */
  function MissedNow(missed: set<string>, added: set<string>, m: Grant): set<string> {
    missed - added + (added - m.privileges)
  }

  lemma GrantedOk(a: Acl, initial: Acl, ours: Grant, refused: set<string>, missed: set<string>, taken: set<string>,
                  m: Grant, privileges: set<string>, withOption: bool, alone: bool)
    requires HeldOk(a, initial, ours, alone) && Listed(initial, ours, refused + missed, m, alone) && a.present
    requires missed <= taken && Grantable(a, taken, m, privileges, withOption)
    ensures var more, added := Merge(ours, Missing(a, privileges, withOption)), privileges - a.held;
            && HeldOk(Granted(a, privileges, withOption), initial, more, alone)
            && Listed(initial, more, (refused - added) + MissedNow(missed, added, m), m, alone)
            && MissedNow(missed, added, m) <= taken
  {
  }

  /** The entry m lists these privileges; or, when they come with the grant option, that option, and they
      were held when the ledger was written. */
  ghost predicate Grantable(a: Acl, taken: set<string>, m: Grant, privileges: set<string>, withOption: bool) {
    if withOption then privileges <= m.options && privileges <= m.privileges + a.held + taken
    else privileges <= m.privileges
  }

  lemma RevokedOk(a: Acl, initial: Acl, ours: Grant, excused: set<string>, m: Grant, privileges: set<string>,
                  mode: Mode, alone: bool)
    requires HeldOk(a, initial, ours, alone) && Listed(initial, ours, excused, m, alone)
    requires alone ==> privileges !! initial.options
    requires alone && !mode.OptionOnly? ==> privileges !! initial.held
    ensures var fewer := RevokedGrant(ours, privileges, mode);
            && HeldOk(Revoked(a, privileges, mode), initial, fewer, alone)
            && Listed(initial, fewer, excused, m, alone)
  {
  }

  type Sets = map<string, set<string>>

  function SetAt(m: Sets, k: string): set<string> {
    if k in m then m[k] else {}
  }

  /** pgop's own grants have only become fewer. */
  ghost predicate Fewer(before: Ledger, after: Ledger) {
    forall k :: Within(GrantAt(after, k), GrantAt(before, k))
  }

  /** What was held still is, or others have taken it away. */
  ghost predicate HeldOrTaken(before: Acl, after: Acl, taken: set<string>, taken': set<string>) {
    taken <= taken' && before.held <= after.held + taken'
  }

  ghost predicate NothingLost(before: Acls, after: Acls, taken: Sets, taken': Sets) {
    forall k :: HeldOrTaken(AclAt(before, k), AclAt(after, k), SetAt(taken, k), SetAt(taken', k))
  }

  /** Nothing more misses the ledger. */
  ghost predicate NoMoreMissed(before: Sets, after: Sets) {
    forall k :: SetAt(after, k) <= SetAt(before, k)
  }

  lemma NothingLostBoth(before: Acls, mid: Acls, after: Acls, t: Sets, t': Sets, t'': Sets)
    requires NothingLost(before, mid, t, t') && NothingLost(mid, after, t', t'')
    ensures NothingLost(before, after, t, t'')
  {
    forall k ensures HeldOrTaken(AclAt(before, k), AclAt(after, k), SetAt(t, k), SetAt(t'', k)) {
      assert HeldOrTaken(AclAt(before, k), AclAt(mid, k), SetAt(t, k), SetAt(t', k));
    }
  }

  lemma FewerBoth(before: Ledger, mid: Ledger, after: Ledger)
    requires Fewer(before, mid) && Fewer(mid, after)
    ensures Fewer(before, after)
  {
    forall k ensures Within(GrantAt(after, k), GrantAt(before, k)) {
      assert Within(GrantAt(mid, k), GrantAt(before, k));
    }
  }

  /** Of pgop's grants g, what a grantee that holds a still has. */
  function StillOurs(g: Grant, a: Acl): Grant {
    Grant(g.privileges * a.held, g.options * a.options)
  }

  lemma TakenAway(acls: Acls, k: string, a: Acl, taken: Sets)
    ensures NothingLost(acls, acls[k := a], taken, taken[k := SetAt(taken, k) + (AclAt(acls, k).held - a.held)])
  {
  }

  lemma FewerAt(ours: Ledger, k: string, g: Grant)
    requires Within(g, GrantAt(ours, k))
    ensures Fewer(ours, ours[k := g])
  {
  }

  lemma OutsideOk(a: Acl, a': Acl, initial: Acl, ours: Grant, excused: set<string>, m: Grant, alone: bool)
    requires HeldOk(a, initial, ours, alone) && Listed(initial, ours, excused, m, alone) && WellFormed(a')
    requires alone ==> a'.(passedOn := {}) == a.(passedOn := {})
    ensures HeldOk(a', initial, StillOurs(ours, a'), alone) && Listed(initial, StillOurs(ours, a'), excused, m, alone)
    ensures Within(StillOurs(ours, a'), ours) && (alone ==> a.held - a'.held == {})
  {
  }

  lemma GrantLosesNothing(before: Acls, after: Acls, k: string, privileges: set<string>, withOption: bool,
                          taken: Sets)
    requires after == before || after == before[k := Granted(AclAt(before, k), privileges, withOption)]
    ensures NothingLost(before, after, taken, taken)
  {
  }

  /** What a REVOKE does. */
  ghost predicate RevokedFrom(r: Outcome, before: Acls, after: Acls, k: string, privileges: set<string>, mode: Mode) {
    var a := AclAt(before, k);
    && (after == before || after == before[k := Revoked(a, privileges, mode)])
    && (r.Done? ==> after == before[k := Revoked(a, privileges, mode)] && (mode.Plain? ==> privileges !! a.passedOn))
    && (r.Dependents? ==> after == before && !(privileges !! a.passedOn))
  }

  class World {
    var acls: Acls
    var ledger: Ledger
    /** Grants of pgop's statements that nobody has revoked since. */
    ghost var ours: Ledger
    /** Privileges reported with RevokeSkipped. */
    ghost var refused: Sets
    /** Privileges that pgop granted although the ledger did not list them. */
    ghost var missed: Sets
    /** Privileges that others have taken away. */
    ghost var taken: Sets
    ghost var statements: nat
    /** Every ledger pgop recorded, or tried to. */
    ghost var history: seq<Ledger>
    ghost const initial: Acls
    /** Nobody else changes privileges (grantees may pass on what they can). */
    const alone: bool
    /** Nobody else acts during a pass. */
    const quiet: bool
    /** Every call succeeds that the server and the API can carry out. */
    const reliable: bool
    /** The ledgers that the API takes. */
    const accepts: Ledger -> bool

    ghost function RefusedAt(k: string): set<string>
      reads this`refused
    {
      SetAt(refused, k)
    }

    ghost function MissedAt(k: string): set<string>
      reads this`missed
    {
      SetAt(missed, k)
    }

    ghost function TakenAt(k: string): set<string>
      reads this`taken
    {
      SetAt(taken, k)
    }

    /** The ledger m would be right to record for key k. */
    ghost predicate Right(k: string, m: Grant)
      reads this`ours, this`refused, this`missed
    {
      Listed(AclAt(initial, k), GrantAt(ours, k), RefusedAt(k) + MissedAt(k), m, alone)
    }

    ghost predicate AclOk(k: string)
      reads this`acls, this`ours
    {
      HeldOk(AclAt(acls, k), AclAt(initial, k), GrantAt(ours, k), alone)
    }

    ghost predicate TakenOk(k: string)
      reads this`missed, this`taken
    {
      MissedAt(k) <= TakenAt(k) && (alone ==> TakenAt(k) == {})
    }

    ghost predicate KeyOk(k: string)
      reads this`acls, this`ours, this`refused, this`missed, this`taken, this`ledger
    {
      AclOk(k) && Right(k, GrantAt(ledger, k)) && TakenOk(k)
    }

    /** The invariant: of every pass, after every statement and every status write. */
    ghost predicate Inv()
      reads this`acls, this`ours, this`refused, this`missed, this`taken, this`ledger, this`history
    {
      && Tidy(ledger) && (ledger == map[] || ledger in history) && accepts(ledger)
      && forall k :: KeyOk(k)
    }

    /** A ledger that may be written to the status. */
    ghost predicate MayRecord(m: Ledger)
      reads this`ours, this`refused, this`missed
    {
      Tidy(m) && forall k {:trigger Right(k, GrantAt(m, k))} :: Right(k, GrantAt(m, k))
    }

    ghost predicate MayGrant(k: string, privileges: set<string>, withOption: bool)
      reads this`acls, this`taken, this`ledger
    {
      Grantable(AclAt(acls, k), TakenAt(k), GrantAt(ledger, k), privileges, withOption)
    }

    /** Only what concerns key k has changed. */
    twostate predicate Only(k: string)
      reads this`acls, this`ours, this`refused
    {
      forall j :: j != k ==>
        && AclAt(acls, j) == old(AclAt(acls, j))
        && GrantAt(ours, j) == old(GrantAt(ours, j))
        && RefusedAt(j) == old(RefusedAt(j))
    }

    twostate lemma OkElsewhere(k: string)
      requires old(Inv()) && Only(k) && KeyOk(k) && ledger == old(ledger)
      requires forall j :: j != k ==> MissedAt(j) == old(MissedAt(j)) && TakenAt(j) == old(TakenAt(j))
      ensures forall j :: KeyOk(j)
    {
      forall j ensures KeyOk(j) {
        assert old(KeyOk(j));
      }
    }

    constructor (start: Acls, undisturbed: bool, still: bool, calm: bool, api: Ledger -> bool)
      requires api(map[]) && forall k :: WellFormed(AclAt(start, k))
      ensures Inv() && acls == start && initial == start && ledger == map[] && history == [] && alone == undisturbed
      ensures quiet == still && reliable == calm && accepts == api && missed == map[]
    {
      acls, ledger, ours, refused, missed, taken := start, map[], map[], map[], map[], map[];
      statements, history := 0, [];
      initial, alone, quiet, reliable, accepts := start, undisturbed, still, calm, api;
    }

    /** What others do at key k. pgop's grants that they revoke are no longer pgop's. */
    method Outside(k: string, a: Acl)
      requires Inv() && WellFormed(a)
      requires alone ==> a.(passedOn := {}) == AclAt(acls, k).(passedOn := {})
      modifies this`acls, this`ours, this`taken
      ensures Inv() && acls == old(acls)[k := a]
      ensures ours == old(ours)[k := StillOurs(old(GrantAt(ours, k)), a)]
      ensures taken == old(taken)[k := old(TakenAt(k)) + (old(AclAt(acls, k)).held - a.held)]
    {
      ghost var g, t := StillOurs(GrantAt(ours, k), a), TakenAt(k) + (AclAt(acls, k).held - a.held);
      assert KeyOk(k);
      OutsideOk(AclAt(acls, k), a, AclAt(initial, k), GrantAt(ours, k), RefusedAt(k) + MissedAt(k),
                GrantAt(ledger, k), alone);
      taken, acls, ours := taken[k := t], acls[k := a], ours[k := g];
      OkElsewhere(k);
    }

    /** What others do before a call. */
    method Others()
      requires Inv()
      modifies this`acls, this`ours, this`taken
      ensures Inv() && Fewer(old(ours), ours) && NothingLost(old(acls), acls, old(taken), taken)
      ensures quiet ==> acls == old(acls) && ours == old(ours)
    {
      if quiet {
        return;
      }
      var changes: seq<(string, Acl)> := *;
      for n := 0 to |changes|
        invariant Inv() && Fewer(old(ours), ours) && NothingLost(old(acls), acls, old(taken), taken)
      {
        var k, a := changes[n].0, changes[n].1;
        if WellFormed(a) && (alone ==> a.(passedOn := {}) == AclAt(acls, k).(passedOn := {})) {
          ghost var before, t, g := acls, taken, ours;
          Outside(k, a);
          TakenAway(before, k, a, t);
          FewerAt(g, k, StillOurs(GrantAt(g, k), a));
          NothingLostBoth(old(acls), before, acls, old(taken), t, taken);
          FewerBoth(old(ours), g, ours);
        }
      }
    }

    /** GRANT privileges TO the grantee [WITH GRANT OPTION], on the server. added is what it adds. */
    method Grants(k: string, privileges: set<string>, withOption: bool) returns (r: Outcome, ghost added: set<string>)
      requires Inv() && MayGrant(k, privileges, withOption)
      modifies this`acls, this`ours, this`refused, this`missed, this`statements
      ensures Inv() && !r.Dependents? && statements == old(statements) + 1
      ensures (added == {} && acls == old(acls) && ours == old(ours) && refused == old(refused)
               && missed == old(missed))
              || (old(AclAt(acls, k)).present && added == privileges - old(AclAt(acls, k)).held
                  && acls == old(acls[k := Granted(AclAt(acls, k), privileges, withOption)])
                  && ours == old(ours[k := Merge(GrantAt(ours, k), Missing(AclAt(acls, k), privileges, withOption))])
                  && refused == old(refused)[k := old(RefusedAt(k)) - added]
                  && missed == old(missed)[k := MissedNow(old(MissedAt(k)), added, GrantAt(ledger, k))])
      ensures reliable ==> r == if old(AclAt(acls, k)).present then Done else Failed
      ensures r.Done? ==>
                && old(AclAt(acls, k)).present && added == privileges - old(AclAt(acls, k)).held
                && acls == old(acls[k := Granted(AclAt(acls, k), privileges, withOption)])
    {
      r := *;
      var applied: bool := *;
      statements := statements + 1;
      var present := AclAt(acls, k).present;
      added := {};
      if r.Dependents? || (r.Done? && !present) {
        r := Failed;
      }
      if reliable {
        r := if present then Done else Failed;
      }
      if present && (applied || r.Done?) {
        added := Applied(k, privileges, withOption);
      }
    }

    method Applied(k: string, privileges: set<string>, withOption: bool) returns (ghost added: set<string>)
      requires Inv() && MayGrant(k, privileges, withOption) && AclAt(acls, k).present
      modifies this`acls, this`ours, this`refused, this`missed
      ensures Inv() && added == privileges - old(AclAt(acls, k)).held
      ensures acls == old(acls[k := Granted(AclAt(acls, k), privileges, withOption)])
      ensures ours == old(ours[k := Merge(GrantAt(ours, k), Missing(AclAt(acls, k), privileges, withOption))])
      ensures refused == old(refused)[k := old(RefusedAt(k)) - added]
      ensures missed == old(missed)[k := MissedNow(old(MissedAt(k)), added, GrantAt(ledger, k))]
    {
      var a := AclAt(acls, k);
      added := privileges - a.held;
      assert KeyOk(k);
      GrantedOk(a, AclAt(initial, k), GrantAt(ours, k), RefusedAt(k), MissedAt(k), TakenAt(k), GrantAt(ledger, k),
                privileges, withOption, alone);
      ours := ours[k := Merge(GrantAt(ours, k), Missing(a, privileges, withOption))];
      refused := refused[k := RefusedAt(k) - added];
      missed := missed[k := MissedNow(MissedAt(k), added, GrantAt(ledger, k))];
      acls := acls[k := Granted(a, privileges, withOption)];
      OkElsewhere(k);
    }

    /** The same after what others do before it; mid is what they leave. */
    method GrantTo(k: string, privileges: set<string>, withOption: bool)
        returns (r: Outcome, ghost mid: Acls, ghost added: set<string>)
      requires Inv() && MayGrant(k, privileges, withOption)
      modifies this`acls, this`ours, this`refused, this`missed, this`taken, this`statements
      ensures Inv() && NothingLost(old(acls), acls, old(taken), taken)
      ensures !r.Dependents? && statements == old(statements) + 1
      ensures acls == mid
              || (AclAt(mid, k).present && acls == mid[k := Granted(AclAt(mid, k), privileges, withOption)])
      // of what it adds, exactly what the ledger does not list misses it
      ensures (added == {} && acls == mid && missed == old(missed))
              || (added == privileges - AclAt(mid, k).held
                  && missed == old(missed)[k := MissedNow(old(MissedAt(k)), added, GrantAt(ledger, k))])
      ensures r.Done? ==>
                && AclAt(mid, k).present && added == privileges - AclAt(mid, k).held
                && acls == mid[k := Granted(AclAt(mid, k), privileges, withOption)]
      ensures reliable ==> r == if AclAt(mid, k).present then Done else Failed
      ensures quiet ==> mid == old(acls)
      ensures quiet ==>
                (acls == old(acls) && ours == old(ours) && refused == old(refused))
                || (ours == old(ours[k := Merge(GrantAt(ours, k), Missing(AclAt(acls, k), privileges, withOption))])
                    && refused == old(refused[k := RefusedAt(k) - (privileges - AclAt(acls, k).held)]))
    {
      ghost var t := taken;
      Others();
      mid := acls;
      assert HeldOrTaken(old(AclAt(acls, k)), AclAt(acls, k), old(TakenAt(k)), TakenAt(k));
      r, added := Grants(k, privileges, withOption);
      GrantLosesNothing(mid, acls, k, privileges, withOption, taken);
      NothingLostBoth(old(acls), mid, acls, t, taken, taken);
    }

    /** REVOKE privileges (or only their grant option) FROM the grantee, on the server. Without CASCADE it
        refuses the whole statement when the grantee passed one of them on. */
    method Revokes(k: string, privileges: set<string>, mode: Mode) returns (r: Outcome)
      requires Inv()
      requires alone ==> privileges !! AclAt(initial, k).options
      requires alone && !mode.OptionOnly? ==> privileges !! AclAt(initial, k).held
      modifies this`acls, this`ours, this`statements
      ensures Inv() && statements == old(statements) + 1
      ensures acls == old(acls) || acls == old(acls[k := Revoked(AclAt(acls, k), privileges, mode)])
      ensures ours == old(ours) || ours == old(ours[k := RevokedGrant(GrantAt(ours, k), privileges, mode)])
      ensures r.Done? ==> acls == old(acls[k := Revoked(AclAt(acls, k), privileges, mode)])
                          && ours == old(ours[k := RevokedGrant(GrantAt(ours, k), privileges, mode)])
      ensures reliable ==> r.Done? || r.Dependents?
      ensures r.Done? && mode.Plain? ==> privileges !! old(AclAt(acls, k)).passedOn
      ensures r.Dependents? ==>
                mode.Plain? && !(privileges !! old(AclAt(acls, k)).passedOn) && acls == old(acls) && ours == old(ours)
    {
      r := *;
      var applied: bool := *;
      statements := statements + 1;
      var a := AclAt(acls, k);
      assert KeyOk(k);
      var blocked := mode.Plain? && !(privileges !! a.passedOn);
      if blocked && r.Done? {
        r := Dependents;
      } else if !blocked && r.Dependents? {
        r := Failed;
      }
      if reliable {
        r := if blocked then Dependents else Done;
      }
      if !blocked && (applied || r.Done?) {
        RevokedOk(a, AclAt(initial, k), GrantAt(ours, k), RefusedAt(k) + MissedAt(k), GrantAt(ledger, k), privileges,
                  mode, alone);
        acls := acls[k := Revoked(a, privileges, mode)];
        ours := ours[k := RevokedGrant(GrantAt(ours, k), privileges, mode)];
        OkElsewhere(k);
      }
    }

    /** The same after what others do before it; mid is what they leave. */
    method RevokeFrom(k: string, privileges: set<string>, mode: Mode) returns (r: Outcome, ghost mid: Acls)
      requires Inv()
      requires alone ==> privileges !! AclAt(initial, k).options
      requires alone && !mode.OptionOnly? ==> privileges !! AclAt(initial, k).held
      modifies this`acls, this`ours, this`taken, this`statements
      ensures Inv() && Fewer(old(ours), ours) && statements == old(statements) + 1
      ensures r.Done? ==> GrantAt(ours, k) == RevokedGrant(GrantAt(ours, k), privileges, mode)
      ensures reliable ==> r.Done? || r.Dependents?
      ensures r.Dependents? ==> mode.Plain?
      ensures quiet ==> ours == old(ours) || ours == old(ours[k := RevokedGrant(GrantAt(ours, k), privileges, mode)])
      ensures RevokedFrom(r, mid, acls, k, privileges, mode) && (quiet ==> mid == old(acls))
    {
      Others();
      ghost var before := ours;
      mid := acls;
      r := Revokes(k, privileges, mode);
      FewerBoth(old(ours), before, ours);
    }

    /** RevokeSkipped: the privileges are reported as refused and no longer tracked. */
    ghost method Report(k: string, blocked: set<string>)
      requires Inv()
      modifies this`refused
      ensures Inv() && refused == old(refused)[k := old(RefusedAt(k)) + blocked]
    {
      refused := refused[k := RefusedAt(k) + blocked];
      assert old(KeyOk(k));
      OkElsewhere(k);
    }

    /** The status write, of a ledger that the API takes or not. After an error the ledger may have been
        written all the same. */
    method Save(m: Ledger) returns (r: Outcome)
      requires Inv() && MayRecord(m)
      modifies this`acls, this`ours, this`taken, this`ledger, this`history
      ensures Inv() && Fewer(old(ours), ours) && NothingLost(old(acls), acls, old(taken), taken)
      ensures !r.Dependents? && history == old(history) + [m]
      ensures ledger == m || (!r.Done? && ledger == old(ledger))
      ensures !accepts(m) ==> !r.Done? && ledger == old(ledger)
      ensures reliable && accepts(m) ==> r.Done?
      ensures reliable && !accepts(m) ==> r.Failed?
      ensures quiet ==> acls == old(acls) && ours == old(ours)
    {
      Others();
      label now:
      r := *;
      var applied: bool := *;
      history := history + [m];
      if r.Dependents? || (r.Done? && !accepts(m)) {
        r := Failed;
      }
      if reliable {
        r := if accepts(m) then Done else Failed;
      }
      if accepts(m) && (r.Done? || applied) {
        ledger := m;
      }
      forall j ensures KeyOk(j) {
        assert old@now(KeyOk(j)) && old(Right(j, GrantAt(m, j)));
      }
    }

    /** Reads may fail, too. */
    method Held(k: string) returns (held: set<string>, options: set<string>, r: Outcome)
      requires Inv()
      modifies this`acls, this`ours, this`taken
      ensures Inv() && Fewer(old(ours), ours) && NothingLost(old(acls), acls, old(taken), taken)
      ensures r.Done? ==> held == AclAt(acls, k).held && options == AclAt(acls, k).options
      ensures reliable ==> r.Done?
      ensures quiet ==> acls == old(acls) && ours == old(ours)
    {
      Others();
      r := *;
      if reliable {
        r := Done;
      }
      held, options := AclAt(acls, k).held, AclAt(acls, k).options;
    }

    method Gone(k: string) returns (gone: bool, r: Outcome)
      requires Inv()
      modifies this`acls, this`ours, this`taken
      ensures Inv() && Fewer(old(ours), ours) && NothingLost(old(acls), acls, old(taken), taken)
      ensures r.Done? ==> gone == !AclAt(acls, k).present
      ensures reliable ==> r.Done?
      ensures quiet ==> acls == old(acls) && ours == old(ours)
    {
      Others();
      r := *;
      if reliable {
        r := Done;
      }
      gone := !AclAt(acls, k).present;
    }
  }

  function RevokedGrant(g: Grant, privileges: set<string>, mode: Mode): Grant {
    Grant(if mode.OptionOnly? then g.privileges else g.privileges - privileges, g.options - privileges)
  }
}
