/** A Role's password: PostgreSQL, the credentials Secret and the Role's status are written in this
    order. Cached reads may be stale, any call may fail (a failed write may have been applied), and the
    operator may crash at any of them. Fingerprints are modelled by what they fingerprint. */
module RolePassword {
  import opened Option

  /** The Role's rotate-password annotation and the password fields of its status. */
  datatype Role = Role(annotation: string, request: string, rotatedAt: Option<int>, hash: Option<string>)

  datatype Secret = Secret(password: string, fingerprint: Option<string>)

  /** What a fixed Role spec says: a referenced password, or the interval of scheduled rotations (0:
      none). */
  datatype Spec = Spec(fromRef: bool, ref: string, every: nat)

  datatype Outcome = Done | Conflict | Failed | Crashed

  datatype Decision = Decision(value: string, generated: bool, rotated: bool, force: bool, applied: bool,
                               request: string)

  const ATTEMPTS := 5

  // ---------- deciding ----------

  function PendingRequest(role: Role): string {
    if role.annotation == role.request then "" else role.annotation
  }

  predicate RotationDue(spec: Spec, role: Role, now: int) {
    spec.every > 0 && role.rotatedAt.Some? && now >= role.rotatedAt.value + spec.every
  }

  predicate Pending(spec: Spec, role: Role, now: int) {
    PendingRequest(role) != "" || RotationDue(spec, role, now)
  }

  /** The password is on record as the one PostgreSQL has. */
  predicate Applied(role: Role, secret: Secret, password: string) {
    && password != ""
    && if secret.fingerprint.Some? then secret.fingerprint.value == password else role.hash == Some(password)
  }

  function ChoosePassword(spec: Spec, role: Role, current: string, now: int, random: string): Decision {
    var req := PendingRequest(role);
    if spec.fromRef then Decision(spec.ref, false, false, req != "", false, req)
    else if current != "" && !Pending(spec, role, now) then Decision(current, false, false, false, false, "")
    else Decision(random, true, current != "", false, false, req)
  }

  function RecordPassword(spec: Spec, role: Role, d: Decision, now: int): Role {
    Role(role.annotation, if d.request != "" then d.request else role.request,
         if spec.fromRef then None
         else if d.generated || (role.rotatedAt.None? && spec.every > 0) then Some(now)
         else role.rotatedAt,
         None)
  }

  // ---------- the world ----------

  /** Versions of an object: the index is the resource version, the last one is current. */
  function Last<T>(versions: seq<T>): nat
    requires versions != []
  {
    |versions| - 1
  }

  ghost predicate SecretsOk(spec: Spec, secrets: seq<Secret>) {
    && (forall s <- secrets :: s.password != "" && (s.fingerprint.Some? ==> s.fingerprint.value == s.password))
    // a Secret without a fingerprint is the one of an earlier release
    && (forall i, j :: 0 <= i < j < |secrets| && secrets[j].fingerprint.None? ==> secrets[i] == secrets[j])
    && (spec.fromRef ==> forall i, j :: 0 <= i < j < |secrets| && secrets[i].password == spec.ref ==>
        secrets[j].password == spec.ref)
  }

  /** The status keeps the hash of an earlier release until the Secret has a fingerprint. */
  ghost predicate HashesOk(secrets: seq<Secret>, roles: seq<Role>) {
    && (secrets != [] && secrets[0].fingerprint.None? ==> forall r <- roles :: r.hash.Some? ==>
        r.hash.value == secrets[0].password)
    && (secrets != [] && secrets[Last(secrets)].fingerprint.None? ==> forall i, j :: 0 <= i < j < |roles| ==>
        roles[i].hash == roles[j].hash)
  }

  ghost predicate Ok(spec: Spec, roles: seq<Role>, secrets: seq<Secret>) {
    roles != [] && (spec.fromRef ==> spec.ref != "") && SecretsOk(spec, secrets) && HashesOk(secrets, roles)
  }

  /** The Secret holds PostgreSQL's password. */
  ghost predicate Matches(pg: string, secrets: seq<Secret>) {
    secrets != [] && secrets[Last(secrets)].password == pg
  }

  /** With what is current, a reconcile sends a password. */
  ghost predicate WillSend(spec: Spec, role: Role, secret: Secret, now: int) {
    if spec.fromRef then PendingRequest(role) != "" || !Applied(role, secret, spec.ref)
    else Pending(spec, role, now) || !Applied(role, secret, secret.password)
  }

  /** The Secret matches, or with this Role version a reconcile makes it match. */
  ghost predicate CanMatch(spec: Spec, pg: string, secrets: seq<Secret>, role: Role, now: int) {
    secrets == [] || Matches(pg, secrets) || WillSend(spec, role, secrets[Last(secrets)], now)
  }

  // ---------- what others do ----------

  /** All versions of the Role and of the Secret, and whether a rotation request was ever withdrawn. */
  datatype Snapshot = Snapshot(roles: seq<Role>, secrets: seq<Secret>, withdrawn: bool)

  /** Since version i nothing has changed but the annotation, to requests that are not acted on yet (or
      one was withdrawn). */
  ghost predicate OnlyAsked(roles: seq<Role>, i: nat, withdrawn: bool)
    requires i < |roles|
  {
    forall j :: i < j < |roles| ==>
      roles[j] == roles[i].(annotation := roles[j].annotation) && (withdrawn || PendingRequest(roles[j]) != "")
  }

  /** Since version i neither password nor fingerprint has changed. */
  ghost predicate OnlyTouched(secrets: seq<Secret>, i: nat)
    requires i < |secrets|
  {
    forall j :: i < j < |secrets| ==> secrets[j] == secrets[i]
  }

  ghost predicate Interferes(a: Snapshot, b: Snapshot) {
    && a.roles != [] && a.roles <= b.roles && OnlyAsked(b.roles, Last(a.roles), b.withdrawn)
    && a.secrets <= b.secrets && (a.secrets == [] ==> b.secrets == [])
    && (a.secrets != [] ==> OnlyTouched(b.secrets, Last(a.secrets)))
    && (a.withdrawn ==> b.withdrawn)
  }

  lemma InterferesBoth(a: Snapshot, b: Snapshot, c: Snapshot)
    requires Interferes(a, b) && Interferes(b, c)
    ensures Interferes(a, c)
  {
  }

  /** As long as no request is withdrawn, others do not spoil what can match. */
  lemma StillCanMatch(spec: Spec, pg: string, now: int, a: Snapshot, b: Snapshot)
    requires Interferes(a, b) && !b.withdrawn && CanMatch(spec, pg, a.secrets, a.roles[Last(a.roles)], now)
    ensures CanMatch(spec, pg, b.secrets, b.roles[Last(b.roles)], now)
  {
    assert |b.roles| > |a.roles| ==> PendingRequest(b.roles[Last(b.roles)]) != "";
    assert b.secrets != [] ==> b.secrets[Last(b.secrets)] == a.secrets[Last(a.secrets)];
  }

  class World {
    const spec: Spec
    /** Reads are current, every call succeeds, and others leave a reconcile alone. */
    const reliable: bool
    var pg: string
    var secrets: seq<Secret>
    var roles: seq<Role>
    ghost var withdrawn: bool
    var now: int

    ghost predicate Inv()
      reads this`secrets, this`roles
    {
      Ok(spec, roles, secrets)
    }

    /** The Secret matches, or the next reconcile will make it match. */
    ghost predicate Recoverable()
      requires roles != []
      reads this`pg, this`secrets, this`roles, this`now
    {
      CanMatch(spec, pg, secrets, roles[Last(roles)], now)
    }

    ghost function State(): Snapshot
      reads this`roles, this`secrets, this`withdrawn
    {
      Snapshot(roles, secrets, withdrawn)
    }

    /** A Role without Secret, or with one of an earlier release whose password PostgreSQL has as far as
        status.passwordHash says. */
    constructor (s: Spec, role: Role, secret: Option<Secret>, password: string, calm: bool)
      requires s.fromRef ==> s.ref != ""
      requires secret.Some? ==> secret.value.password != "" && secret.value.fingerprint.None?
                                && (role.hash.Some? ==> role.hash.value == secret.value.password == password)
      ensures Inv() && Recoverable()
      ensures spec == s && reliable == calm && pg == password && roles == [role] && !withdrawn
      ensures secrets == if secret.Some? then [secret.value] else []
    {
      spec, reliable, pg, roles, withdrawn, now := s, calm, password, [role], false, 0;
      secrets := if secret.Some? then [secret.value] else [];
    }

    method ReadRole() returns (i: nat)
      requires Inv()
      ensures i < |roles| && (reliable ==> i == Last(roles))
    {
      i :| i < |roles|;
      if reliable {
        i := Last(roles);
      }
    }

    method FreshRole() returns (i: nat, ok: bool)
      requires Inv()
      ensures i < |roles| && (ok ==> i == Last(roles)) && (reliable ==> ok)
    {
      i, ok := 0, *;
      ok := ok || reliable;
      if ok {
        i := Last(roles);
      }
    }

    /** A Secret missing from the cache is looked up uncached. */
    method ReadSecret() returns (i: Option<nat>)
      ensures if secrets == [] then i.None? else i.Some? && i.value < |secrets|
      ensures reliable && secrets != [] ==> i.value == Last(secrets)
    {
      if secrets == [] {
        return None;
      }
      var n :| 0 <= n < |secrets|;
      i := Some(if reliable then Last(secrets) else n);
    }

    method FreshSecret() returns (i: nat, ok: bool)
      requires secrets != []
      ensures i < |secrets| && (ok ==> i == Last(secrets)) && (reliable ==> ok)
    {
      i, ok := 0, *;
      ok := ok || reliable;
      if ok {
        i := Last(secrets);
      }
    }

    /** A random password: none of those there have been. */
    method Generate() returns (random: string)
      ensures random != "" && forall s <- secrets :: s.password != random
    {
      random := "0";
      var n := 0;
      while n < |secrets|
        invariant n <= |secrets|
        invariant random != "" && forall k :: 0 <= k < n ==> |secrets[k].password| < |random|
      {
        random := random + secrets[n].password + "0";
        n := n + 1;
      }
    }

    method Send(password: string) returns (r: Outcome)
      modifies this`pg
      ensures !r.Conflict? && (pg == old(pg) || pg == password) && (r.Done? ==> pg == password)
      ensures reliable ==> r.Done?
    {
      r := *;
      if reliable {
        r := Done;
      }
      var applied: bool := *;
      if r.Conflict? {
        r := Failed;
      }
      if applied || r.Done? {
        pg := password;
      }
    }

    /** Writes a new version of the Secret over version base (none: creates it). */
    method WriteSecret(base: Option<nat>, s: Secret) returns (r: Outcome)
      requires Inv() && s.password != "" && s.fingerprint == Some(s.password)
      requires spec.fromRef ==> s.password == spec.ref
      modifies this`secrets
      ensures Inv()
      ensures secrets == old(secrets)
              || (secrets == old(secrets) + [s]
                  && base == if old(secrets) == [] then None else Some(Last(old(secrets))))
      ensures (r.Done? ==> secrets == old(secrets) + [s]) && (r.Conflict? ==> secrets == old(secrets))
      ensures reliable && base == (if old(secrets) == [] then None else Some(Last(old(secrets)))) ==> r.Done?
    {
      r := *;
      if reliable {
        r := Done;
      }
      var applied: bool := *;
      var current := base == if secrets == [] then None else Some(Last(secrets));
      if !current && r.Done? {
        r := Conflict;
      }
      if current && !r.Conflict? && (applied || r.Done?) {
        secrets := secrets + [s];
      }
    }

    /** A user sets (or removes) the rotate-password annotation. */
    method Annotate(value: string)
      requires Inv()
      modifies this`roles, this`withdrawn
      ensures Inv() && roles == old(roles) + [old(roles[Last(roles)]).(annotation := value)]
      ensures withdrawn == (old(withdrawn) || value == "" || value == old(roles[Last(roles)]).request)
      ensures Interferes(old(State()), State())
    {
      withdrawn := withdrawn || value == "" || value == roles[Last(roles)].request;
      roles := roles + [roles[Last(roles)].(annotation := value)];
    }

    /** Someone changes the Secret, but neither password nor fingerprint. */
    method Touch()
      requires Inv()
      modifies this`secrets
      ensures Inv() && secrets == if old(secrets) == [] then [] else old(secrets) + [old(secrets[Last(secrets)])]
      ensures Interferes(old(State()), State())
    {
      if secrets != [] {
        secrets := secrets + [secrets[Last(secrets)]];
      }
    }

    /** What others do between two calls of a reconcile. */
    method Others()
      requires Inv()
      modifies this`roles, this`secrets, this`withdrawn
      ensures Inv() && Interferes(old(State()), State()) && (reliable ==> State() == old(State()))
    {
      var steps :| steps >= 0;
      if reliable {
        steps := 0;
      }
      for n := 0 to steps
        invariant Inv() && Interferes(old(State()), State()) && (reliable ==> State() == old(State()))
      {
        ghost var before := State();
        var value: string, touch: bool := *, *;
        if touch {
          Touch();
        } else {
          Annotate(value);
        }
        InterferesBoth(old(State()), before, State());
      }
    }

    /** The status update, refused unless the Role is still at version base. */
    method WriteStatus(base: nat, role: Role) returns (r: Outcome)
      requires Inv() && base < |roles| && role.hash.None?
      requires secrets != [] && secrets[Last(secrets)].fingerprint.Some?
      modifies this`roles
      ensures Inv()
      ensures roles == old(roles) || (roles == old(roles) + [role] && base == Last(old(roles)))
      ensures r.Done? ==> roles == old(roles) + [role]
      ensures reliable && base == Last(old(roles)) ==> r.Done?
    {
      r := *;
      if reliable {
        r := Done;
      }
      var applied: bool := *;
      var current := base == Last(roles);
      if !current && r.Done? {
        r := Conflict;
      }
      if current && !r.Conflict? && (applied || r.Done?) {
        roles := roles + [role];
      }
    }
  }

  // ---------- one reconcile ----------

  function PasswordIn(secrets: seq<Secret>, i: Option<nat>): string
    requires i.Some? ==> i.value < |secrets|
  {
    if i.Some? then secrets[i.value].password else ""
  }

  function PasswordNow(secrets: seq<Secret>): string {
    if secrets == [] then "" else secrets[Last(secrets)].password
  }

  ghost predicate Unused(secrets: seq<Secret>, password: string) {
    password != "" && forall s <- secrets :: s.password != password
  }

  /** Versions that there are; a Secret is read as missing only if it is. */
  predicate AreVersions(s: Snapshot, ri: nat, si: Option<nat>) {
    ri < |s.roles| && if s.secrets == [] then si.None? else si.Some? && si.value < |s.secrets|
  }

  /** The decision d goes with the Role version ri and the Secret version si. */
  ghost predicate Fits(spec: Spec, now: int, s: Snapshot, d: Decision, ri: nat, si: Option<nat>)
    requires AreVersions(s, ri, si)
  {
    var role := s.roles[ri];
    && d.value != ""
    && d.request == PendingRequest(role)
    && (if spec.fromRef then d.value == spec.ref && !d.generated && !d.rotated && d.force == (d.request != "")
        else !d.force && d.rotated == (d.generated && si.Some?)
             && if d.generated then Unused(s.secrets, d.value) && (si.Some? ==> Pending(spec, role, now))
                else si.Some? && d.value == s.secrets[si.value].password && !Pending(spec, role, now))
    // a password is replaced only with a current Role
    && (d.rotated ==> OnlyAsked(s.roles, ri, s.withdrawn))
  }

  ghost predicate KnownApplied(s: Snapshot, d: Decision, ri: nat, si: Option<nat>)
    requires AreVersions(s, ri, si)
  {
    d.applied == (!d.generated && si.Some? && Applied(s.roles[ri], s.secrets[si.value], d.value))
  }

  /** What ResolvePassword promises: a password taken from the Secret is sent only from the current one. */
  ghost predicate Resolved(spec: Spec, now: int, s: Snapshot, d: Decision, ri: nat, si: Option<nat>) {
    && AreVersions(s, ri, si) && Fits(spec, now, s, d, ri, si) && KnownApplied(s, d, ri, si)
    && (!d.generated && !d.applied && si.Some? ==> OnlyTouched(s.secrets, si.value))
  }

  lemma StillUnused(a: Snapshot, b: Snapshot, password: string)
    requires Interferes(a, b) && Unused(a.secrets, password)
    ensures Unused(b.secrets, password)
  {
    forall s <- b.secrets ensures s.password != password {
      var j :| 0 <= j < |b.secrets| && b.secrets[j] == s;
      assert s == a.secrets[if j < |a.secrets| then j else Last(a.secrets)];
    }
  }

  /** None of this depends on what others do. */
  lemma StillFits(spec: Spec, now: int, a: Snapshot, b: Snapshot, d: Decision, ri: nat, si: Option<nat>)
    requires Interferes(a, b) && AreVersions(a, ri, si) && Fits(spec, now, a, d, ri, si)
    ensures AreVersions(b, ri, si) && Fits(spec, now, b, d, ri, si)
    ensures KnownApplied(a, d, ri, si) ==> KnownApplied(b, d, ri, si)
  {
    assert a.roles[ri] == b.roles[ri] && (si.Some? ==> a.secrets[si.value] == b.secrets[si.value]);
    if d.generated {
      StillUnused(a, b, d.value);
    }
  }

  lemma StillResolved(spec: Spec, now: int, a: Snapshot, b: Snapshot, d: Decision, ri: nat, si: Option<nat>)
    requires Interferes(a, b) && Resolved(spec, now, a, d, ri, si)
    ensures Resolved(spec, now, b, d, ri, si)
  {
    StillFits(spec, now, a, b, d, ri, si);
    assert si.Some? ==> a.secrets[si.value] == b.secrets[si.value];
  }

  /** choosePasswordFresh: before a rotation replaces a password, the Role is read again, uncached. */
  method ChoosePasswordFresh(w: World, ri: nat, si: Option<nat>) returns (d: Decision, ri': nat, ok: bool)
    requires w.Inv() && AreVersions(w.State(), ri, si)
    modifies w`roles, w`secrets, w`withdrawn
    ensures w.Inv() && Interferes(old(w.State()), w.State()) && (w.reliable ==> w.State() == old(w.State()))
    ensures AreVersions(w.State(), ri', si) && (ok ==> Fits(w.spec, w.now, w.State(), d, ri', si) && !d.applied)
    ensures w.reliable && ri == Last(w.roles) ==> ok && ri' == ri
  {
    ri', ok := ri, true;
    var current := PasswordIn(w.secrets, si);
    var random := w.Generate();
    d := ChoosePassword(w.spec, w.roles[ri], current, w.now, random);
    if !d.rotated {
      return;
    }
    w.Others();
    StillUnused(old(w.State()), w.State(), random);
    var last;
    last, ok := w.FreshRole();
    if !ok || last == ri {
      return;
    }
    ri' := last;
    d := ChoosePassword(w.spec, w.roles[ri'], current, w.now, random);
  }

  method Decide(w: World, ri: nat, si: Option<nat>) returns (d: Decision, ri': nat, ok: bool)
    requires w.Inv() && AreVersions(w.State(), ri, si)
    modifies w`roles, w`secrets, w`withdrawn
    ensures w.Inv() && Interferes(old(w.State()), w.State()) && (w.reliable ==> w.State() == old(w.State()))
    ensures AreVersions(w.State(), ri', si)
    ensures ok ==> Fits(w.spec, w.now, w.State(), d, ri', si) && KnownApplied(w.State(), d, ri', si)
    ensures w.reliable && ri == Last(w.roles) ==> ok && ri' == ri
  {
    d, ri', ok := ChoosePasswordFresh(w, ri, si);
    d := d.(applied := !d.generated && si.Some? && Applied(w.roles[ri'], w.secrets[si.value], d.value));
  }

  /** resolvePasswordFresh: before a password that is already in the Secret is sent, the Secret is read
      again, uncached. */
  method ResolvePassword(w: World, ri: nat, si: Option<nat>) returns (d: Decision, ri': nat, si': Option<nat>, ok: bool)
    requires w.Inv() && AreVersions(w.State(), ri, si)
    modifies w`roles, w`secrets, w`withdrawn
    ensures w.Inv() && Interferes(old(w.State()), w.State()) && (w.reliable ==> w.State() == old(w.State()))
    ensures ok ==> Resolved(w.spec, w.now, w.State(), d, ri', si')
    ensures w.reliable && ri == Last(w.roles) && (si.Some? ==> si.value == Last(w.secrets)) ==>
              ok && ri' == ri && si' == si
  {
    si' := si;
    d, ri', ok := Decide(w, ri, si);
    if !ok || d.applied || d.generated || si.None? {
      return;
    }
    ghost var decided := w.State();
    w.Others();
    StillFits(w.spec, w.now, decided, w.State(), d, ri', si);
    InterferesBoth(old(w.State()), decided, w.State());
    var last;
    last, ok := w.FreshSecret();
    if !ok || last == si.value {
      return;
    }
    si' := Some(last);
    decided := w.State();
    d, ri', ok := Decide(w, ri', si');
    InterferesBoth(old(w.State()), decided, w.State());
  }

  /** Whether the update of the Secret would change something: password, fingerprint, or (changed)
      labels and connection info. */
  predicate Converges(s: Secret, password: string, changed: bool) {
    s.password != password || s.fingerprint != Some(password) || changed
  }

  /** What a write of the Secret with this password, in the state calm, has left. */
  ghost predicate Written(w: World, calm: Snapshot, password: string)
    reads w`roles, w`secrets, w`withdrawn
  {
    && w.roles == calm.roles && w.withdrawn == calm.withdrawn
    && (w.secrets == calm.secrets || w.secrets == calm.secrets + [Secret(password, Some(password))])
  }

  /** One update of the Secret as read; after a conflict it is read again. */
  method UpdateSecret(w: World, ghost start: Snapshot, read: nat, password: string)
      returns (r: Outcome, read': nat, ghost calm: Snapshot)
    requires w.Inv() && Interferes(start, w.State()) && read < |w.secrets|
    requires password != "" && (w.spec.fromRef ==> password == w.spec.ref)
    modifies w`secrets, w`roles, w`withdrawn
    ensures w.Inv() && Interferes(start, calm) && Written(w, calm, password) && read' < |w.secrets|
    ensures PasswordNow(calm.secrets) == old(PasswordNow(w.secrets))
    ensures w.secrets != calm.secrets ==> old(w.secrets[read]).password == old(PasswordNow(w.secrets))
    ensures r.Done? ==> w.secrets == calm.secrets + [Secret(password, Some(password))]
    ensures r.Conflict? ==> w.secrets == calm.secrets && w.secrets[read'].password == PasswordNow(w.secrets)
    ensures w.reliable ==> calm == old(w.State()) && (read == Last(old(w.secrets)) ==> r.Done?)
  {
    read' := read;
    calm := OthersAct(w, start, w.State());
    r := w.WriteSecret(Some(read), Secret(password, Some(password)));
    if r.Conflict? {
      calm := OthersAct(w, start, calm);
      var ok;
      read', ok := w.FreshSecret();
      if !ok {
        r := Failed;
      }
    }
  }

  /** reconcileCredentialsSecret: creates or updates the Secret; after a conflict it is read again. changed:
      whether its labels or connection info change. calm: the state when its write took place, or when it
      gave up. */
  method ReconcileSecret(w: World, existing: Option<nat>, password: string, sent: bool, changed: bool)
      returns (r: Outcome, ghost calm: Snapshot)
    requires w.Inv() && password != "" && (w.spec.fromRef ==> password == w.spec.ref)
    requires if w.secrets == [] then existing.None? && sent else existing.Some? && existing.value < |w.secrets|
    requires !sent ==> password == w.secrets[existing.value].password
    requires sent && existing.Some? && w.secrets[existing.value].password == password ==>
             PasswordNow(w.secrets) == password
    modifies w`secrets, w`roles, w`withdrawn
    ensures w.Inv() && Interferes(old(w.State()), calm) && Written(w, calm, password)
    ensures !sent && w.secrets != calm.secrets ==> old(PasswordNow(w.secrets)) == password
    ensures r.Done? ==> w.secrets != [] && w.secrets[Last(w.secrets)].fingerprint.Some?
    ensures r.Done? && sent ==> PasswordNow(w.secrets) == password
    // nothing is written that is there already
    ensures existing.Some? && !changed && old(w.secrets)[existing.value] == Secret(password, Some(password)) ==>
              r.Done? && w.secrets == old(w.secrets)
    ensures w.reliable ==> calm == old(w.State())
    ensures w.reliable && (existing.Some? ==> existing.value == Last(old(w.secrets))) ==> r.Done?
  {
    calm := w.State();
    if existing.None? {
      calm := OthersAct(w, calm, calm);
      r := w.WriteSecret(None, Secret(password, Some(password)));
    } else {
      r, calm := UpdateUntilDone(w, existing.value, password, sent, changed);
    }
  }

  method UpdateUntilDone(w: World, existing: nat, password: string, sent: bool, changed: bool)
      returns (r: Outcome, ghost calm: Snapshot)
    requires w.Inv() && password != "" && (w.spec.fromRef ==> password == w.spec.ref) && existing < |w.secrets|
    requires !sent ==> password == w.secrets[existing].password
    requires sent && w.secrets[existing].password == password ==> PasswordNow(w.secrets) == password
    modifies w`secrets, w`roles, w`withdrawn
    ensures w.Inv() && Interferes(old(w.State()), calm) && Written(w, calm, password)
    ensures !sent && w.secrets != calm.secrets ==> old(PasswordNow(w.secrets)) == password
    ensures r.Done? ==> w.secrets != [] && w.secrets[Last(w.secrets)].fingerprint.Some?
    ensures r.Done? && sent ==> PasswordNow(w.secrets) == password
    // nothing is written that is there already
    ensures !changed && old(w.secrets)[existing] == Secret(password, Some(password)) ==>
              r.Done? && w.secrets == old(w.secrets)
    ensures w.reliable ==> calm == old(w.State()) && (existing == Last(old(w.secrets)) ==> r.Done?)
  {
    ghost var start := w.State();
    calm := start;
    var base := w.secrets[existing].password;
    var read: nat := existing;
    r := Conflict;
    for attempt := 0 to ATTEMPTS
      invariant w.Inv() && read < |w.secrets| && r.Conflict? && calm == w.State() && Interferes(start, calm)
      invariant w.reliable ==> calm == start && (existing == Last(start.secrets) ==> attempt == 0 && read == existing)
      invariant !changed && start.secrets[existing] == Secret(password, Some(password)) ==>
                  attempt == 0 && read == existing && w.secrets == start.secrets
      invariant w.secrets[read].password == base || w.secrets[read].password == PasswordNow(start.secrets)
      invariant PasswordNow(w.secrets) == PasswordNow(start.secrets)
    {
      if !sent && w.secrets[read].password != base {
        return Failed, calm;
      }
      if !Converges(w.secrets[read], password, changed) {
        FingerprintStays(w, read);
        return Done, calm;
      }
      r, read, calm := UpdateSecret(w, start, read, password);
      if !r.Conflict? {
        return;
      }
    }
  }

  lemma FingerprintStays(w: World, i: nat)
    requires w.Inv() && i < |w.secrets| && w.secrets[i].fingerprint.Some?
    ensures w.secrets[Last(w.secrets)].fingerprint.Some?
  {
    if i < Last(w.secrets) && w.secrets[Last(w.secrets)].fingerprint.None? {
      assert false;
    }
  }

  /** Others act once more since the state start. */
  method OthersAct(w: World, ghost start: Snapshot, ghost before: Snapshot) returns (ghost calm: Snapshot)
    requires w.Inv() && before == w.State() && Interferes(start, before)
    modifies w`secrets, w`roles, w`withdrawn
    ensures w.Inv() && calm == w.State() && Interferes(start, calm) && Interferes(before, calm)
    ensures w.reliable ==> calm == before
    ensures PasswordNow(calm.secrets) == PasswordNow(before.secrets)
  {
    w.Others();
    calm := w.State();
    InterferesBoth(start, before, calm);
  }

  // ---------- what a decision means for the current objects ----------

  /** Only the Secret's own password is on record as applied. */
  lemma AppliedIsIn(spec: Spec, s: Snapshot, ri: nat, si: nat, password: string)
    requires Ok(spec, s.roles, s.secrets) && ri < |s.roles| && si < |s.secrets|
    requires Applied(s.roles[ri], s.secrets[si], password)
    ensures s.secrets[si].password == password
    ensures spec.fromRef && password == spec.ref ==> PasswordNow(s.secrets) == password
  {
    assert s.secrets[si] in s.secrets && s.roles[ri] in s.roles;
    if s.secrets[si].fingerprint.None? {
      assert s.secrets[0] == s.secrets[si];
    }
  }

  /** Once sent, the password is in the Secret already, or it will be sent again. */
  lemma SentCanMatch(spec: Spec, now: int, s: Snapshot, d: Decision, ri: nat, si: Option<nat>)
    requires Ok(spec, s.roles, s.secrets) && Resolved(spec, now, s, d, ri, si)
    requires (!d.applied || d.force) && !s.withdrawn
    ensures CanMatch(spec, d.value, s.secrets, s.roles[Last(s.roles)], now)
  {
    if s.secrets != [] {
      var last := Last(s.secrets);
      assert si.value < last && !d.generated && !d.applied ==> s.secrets[last] == s.secrets[si.value];
      if spec.fromRef && d.applied {
        AppliedIsIn(spec, s, ri, si.value, d.value);
      }
    }
  }

  /** Without a stale Role: a password is sent exactly if what is current calls for it. */
  lemma SendsWhenCalledFor(spec: Spec, now: int, s: Snapshot, d: Decision, ri: nat, si: Option<nat>)
    requires Ok(spec, s.roles, s.secrets) && Resolved(spec, now, s, d, ri, si) && ri == Last(s.roles) && s.secrets != []
    ensures (!d.applied || d.force) <==> WillSend(spec, s.roles[ri], s.secrets[Last(s.secrets)], now)
  {
    var last := Last(s.secrets);
    assert s.secrets[si.value] in s.secrets && s.secrets[last] in s.secrets;
    assert s.secrets[last].fingerprint.None? && si.value < last ==> s.secrets[si.value] == s.secrets[last];
    assert si.value < last && !d.generated && !d.applied ==> s.secrets[last] == s.secrets[si.value];
    if d.applied {
      AppliedIsIn(spec, s, ri, si.value, d.value);
    }
  }

  lemma MayReconcileSecret(spec: Spec, now: int, s: Snapshot, d: Decision, ri: nat, si: Option<nat>, sent: bool)
    requires Ok(spec, s.roles, s.secrets) && Resolved(spec, now, s, d, ri, si) && sent == (!d.applied || d.force)
    ensures s.secrets == [] ==> sent
    ensures !sent ==> d.value == s.secrets[si.value].password
    ensures sent && si.Some? && s.secrets[si.value].password == d.value ==> PasswordNow(s.secrets) == d.value
  {
    if d.applied {
      AppliedIsIn(spec, s, ri, si.value, d.value);
    } else if si.Some? && !d.generated {
      assert si.value < Last(s.secrets) ==> s.secrets[Last(s.secrets)] == s.secrets[si.value];
    }
  }

  /** With nothing sent, a password that is due stays due, also after the Secret's labels are written. */
  lemma StaysDue(spec: Spec, now: int, s: Snapshot, d: Decision, ri: nat, si: Option<nat>, pg: string)
    requires Ok(spec, s.roles, s.secrets) && Resolved(spec, now, s, d, ri, si) && d.applied && !d.force
    requires PasswordNow(s.secrets) == d.value && CanMatch(spec, pg, s.secrets, s.roles[Last(s.roles)], now)
    ensures CanMatch(spec, pg, s.secrets + [Secret(d.value, Some(d.value))], s.roles[Last(s.roles)], now)
  {
    var last := Last(s.secrets);
    AppliedIsIn(spec, s, ri, si.value, d.value);
    assert s.secrets[last] in s.secrets;
    if s.secrets[last].fingerprint.None? {
      assert s.secrets[si.value] == s.secrets[last];
      assert s.roles[ri].hash == s.roles[Last(s.roles)].hash;
    }
  }

  /** Once recorded, neither a request nor a scheduled rotation is pending. */
  lemma RecordLeavesNothingPending(spec: Spec, now: int, s: Snapshot, d: Decision, ri: nat, si: Option<nat>)
    requires Resolved(spec, now, s, d, ri, si)
    ensures !Pending(spec, RecordPassword(spec, s.roles[ri], d, now), now)
  {
  }

  // ---------- the three writes ----------

  /** PostgreSQL first. */
  method SendPassword(w: World, d: Decision, ri: nat, si: Option<nat>, sent: bool) returns (r: Outcome)
    requires w.Inv() && Resolved(w.spec, w.now, w.State(), d, ri, si) && sent == (!d.applied || d.force)
    modifies w`pg, w`secrets, w`roles, w`withdrawn
    ensures w.Inv() && Interferes(old(w.State()), w.State()) && (w.reliable ==> r.Done? && w.State() == old(w.State()))
    ensures Resolved(w.spec, w.now, w.State(), d, ri, si)
    ensures old(w.Recoverable()) && !w.withdrawn ==> w.Recoverable()
    ensures if sent then r.Done? ==> w.pg == d.value else w.pg == old(w.pg)
  {
    r := Done;
    ghost var start := w.State();
    w.Others();
    StillResolved(w.spec, w.now, start, w.State(), d, ri, si);
    if old(w.Recoverable()) && !w.withdrawn {
      StillCanMatch(w.spec, w.pg, w.now, start, w.State());
    }
    if sent {
      if !w.withdrawn {
        SentCanMatch(w.spec, w.now, w.State(), d, ri, si);
      }
      r := w.Send(d.value);
    }
  }

  /** Then the Secret. */
  method StorePassword(w: World, d: Decision, ri: nat, si: Option<nat>, sent: bool) returns (r: Outcome)
    requires w.Inv() && Resolved(w.spec, w.now, w.State(), d, ri, si) && sent == (!d.applied || d.force)
    requires sent ==> w.pg == d.value
    modifies w`secrets, w`roles, w`withdrawn
    ensures w.Inv() && old(w.roles) <= w.roles && (old(w.withdrawn) ==> w.withdrawn)
    ensures old(w.Recoverable()) && !w.withdrawn ==> w.Recoverable()
    ensures !sent ==>
              PasswordNow(w.secrets) == old(PasswordNow(w.secrets)) && (w.secrets == [] <==> old(w.secrets) == [])
    ensures r.Done? ==> w.secrets != [] && w.secrets[Last(w.secrets)].fingerprint.Some?
    ensures r.Done? && sent ==> Matches(w.pg, w.secrets)
    ensures w.reliable && (si.Some? ==> si.value == Last(old(w.secrets))) ==> r.Done? && w.roles == old(w.roles)
  {
    ghost var start := w.State();
    MayReconcileSecret(w.spec, w.now, start, d, ri, si, sent);
    ghost var calm;
    var changed: bool := *;
    r, calm := ReconcileSecret(w, si, d.value, sent, changed);
    StillResolved(w.spec, w.now, start, calm, d, ri, si);
    if old(w.Recoverable()) && !w.withdrawn {
      StillCanMatch(w.spec, w.pg, w.now, start, calm);
      if !sent && w.secrets != calm.secrets {
        StillOk(w.spec, start, calm);
        StaysDue(w.spec, w.now, calm, d, ri, si, w.pg);
      }
    }
  }

  lemma SecretsStillOk(spec: Spec, a: Snapshot, b: Snapshot)
    requires Interferes(a, b) && SecretsOk(spec, a.secrets)
    ensures SecretsOk(spec, b.secrets)
  {
    forall j | 0 <= j < |b.secrets| ensures b.secrets[j] == a.secrets[if j < |a.secrets| then j else Last(a.secrets)] {
    }
  }

  lemma StillOk(spec: Spec, a: Snapshot, b: Snapshot)
    requires Interferes(a, b) && Ok(spec, a.roles, a.secrets)
    ensures Ok(spec, b.roles, b.secrets)
  {
    SecretsStillOk(spec, a, b);
    assert a.secrets != [] ==> b.secrets[0] == a.secrets[0] && b.secrets[Last(b.secrets)] == a.secrets[Last(a.secrets)];
    forall j | 0 <= j < |b.roles| ensures b.roles[j].hash == a.roles[if j < |a.roles| then j else Last(a.roles)].hash {
    }
  }

  method SendAndStore(w: World, d: Decision, ri: nat, si: Option<nat>, sent: bool) returns (r: Outcome)
    requires w.Inv() && Resolved(w.spec, w.now, w.State(), d, ri, si) && sent == (!d.applied || d.force)
    modifies w`pg, w`secrets, w`roles, w`withdrawn
    ensures w.Inv() && old(w.roles) <= w.roles && (old(w.withdrawn) ==> w.withdrawn)
    ensures old(w.Recoverable()) && !w.withdrawn ==> w.Recoverable()
    ensures !sent ==> w.pg == old(w.pg) && PasswordNow(w.secrets) == old(PasswordNow(w.secrets))
    ensures r.Done? ==> w.secrets != [] && w.secrets[Last(w.secrets)].fingerprint.Some?
    ensures r.Done? && sent ==> Matches(w.pg, w.secrets)
    ensures r.Done? && sent ==> w.pg == d.value
    ensures w.reliable && (si.Some? ==> si.value == Last(old(w.secrets))) ==> r.Done? && w.roles == old(w.roles)
  {
    r := SendPassword(w, d, ri, si, sent);
    if r.Done? {
      r := StorePassword(w, d, ri, si, sent);
    }
  }

  /** No rotation is pending, and the Secret has a fingerprint. */
  ghost predicate AtRest(spec: Spec, s: Snapshot, now: int) {
    && s.roles != [] && !Pending(spec, s.roles[Last(s.roles)], now)
    && s.secrets != [] && s.secrets[Last(s.secrets)].fingerprint.Some?
  }

  /** And at last the status. */
  method WriteAll(w: World, d: Decision, ri: nat, si: Option<nat>, sent: bool) returns (completed: bool)
    requires w.Inv() && Resolved(w.spec, w.now, w.State(), d, ri, si) && sent == (!d.applied || d.force)
    modifies w`pg, w`secrets, w`roles, w`withdrawn
    ensures w.Inv() && (old(w.withdrawn) ==> w.withdrawn)
    ensures completed ==>
              Completed(old(w.State()), w.State(), ri) && (Matches(w.pg, w.secrets) <==> old(w.Recoverable()))
    ensures completed ==> AtRest(w.spec, w.State(), w.now)
    ensures old(w.Recoverable()) && !w.withdrawn ==> w.Recoverable()
    ensures !sent ==> w.pg == old(w.pg) && PasswordNow(w.secrets) == old(PasswordNow(w.secrets))
    ensures completed ==> w.roles[Last(w.roles)] == RecordPassword(w.spec, old(w.roles)[ri], d, w.now)
    ensures completed && sent ==> PasswordNow(w.secrets) == d.value
    ensures w.reliable && ri == Last(old(w.roles)) && (si.Some? ==> si.value == Last(old(w.secrets))) ==> completed
  {
    completed := false;
    ghost var start := w.State();
    RecordLeavesNothingPending(w.spec, w.now, start, d, ri, si);
    MayReconcileSecret(w.spec, w.now, start, d, ri, si, sent);
    if ri == Last(w.roles) && w.secrets != [] {
      SendsWhenCalledFor(w.spec, w.now, start, d, ri, si);
    }
    // with the Role unchanged since the decision, what could match does by now, if anything was sent
    assert ri == Last(w.roles) ==> (w.Recoverable() <==> sent || Matches(w.pg, w.secrets));
    var role := RecordPassword(w.spec, w.roles[ri], d, w.now);
    var r := SendAndStore(w, d, ri, si, sent);
    if r.Done? {
      completed := UpdateStatus(w, ri, role);
    }
  }

  /** The status was written over version ri, and nothing else since the start. */
  ghost predicate Completed(start: Snapshot, end: Snapshot, ri: nat) {
    start.roles != [] && ri == Last(start.roles) && |end.roles| == |start.roles| + 1
        && end.roles[..|start.roles|] == start.roles
  }

  method UpdateStatus(w: World, ri: nat, role: Role) returns (done: bool)
    requires w.Inv() && ri < |w.roles| && role.hash.None? && w.secrets != []
    requires w.secrets[Last(w.secrets)].fingerprint.Some?
    modifies w`secrets, w`roles, w`withdrawn
    ensures w.Inv() && (old(w.withdrawn) ==> w.withdrawn) && PasswordNow(w.secrets) == old(PasswordNow(w.secrets))
    ensures w.secrets != [] && w.secrets[Last(w.secrets)] == old(w.secrets[Last(w.secrets)])
    ensures Interferes(old(w.State()), w.State()) || (w.roles == old(w.roles) + [role] && ri == Last(old(w.roles)))
    ensures done ==> w.roles == old(w.roles) + [role] && ri == Last(old(w.roles))
    ensures old(w.Recoverable()) && !w.withdrawn && w.roles != old(w.roles) + [role] ==> w.Recoverable()
    ensures w.reliable && ri == Last(old(w.roles)) ==> done
  {
    ghost var start := w.State();
    w.Others();
    ghost var calm := w.State();
    if old(w.Recoverable()) && !w.withdrawn {
      StillCanMatch(w.spec, w.pg, w.now, start, calm);
    }
    var r := w.WriteStatus(ri, role);
    done := r.Done?;
    if w.roles != calm.roles {
      assert |calm.roles| == |start.roles|;
      assert calm.roles == start.roles;
    }
  }

  /** A new rotation request. */
  ghost predicate Requested(role: Role) {
    role.annotation != "" && role.annotation != role.request
  }

  /** A scheduled rotation is due. */
  ghost predicate Scheduled(spec: Spec, role: Role, now: int) {
    spec.every > 0 && role.rotatedAt.Some? && now >= role.rotatedAt.value + spec.every
  }

  /** The password is the one that was sent last, by the Secret's fingerprint or, in a Secret of an earlier
      release, by the status. */
  ghost predicate OnRecord(role: Role, secret: Secret, password: string) {
    if secret.fingerprint.Some? then secret.fingerprint.value == password else role.hash == Some(password)
  }

  /** What a reconcile that nothing goes wrong in makes of the Role and of the password in the Secret. */
  ghost predicate Reconciled(spec: Spec, now: int, role: Role, secrets: seq<Secret>, role': Role, password: string,
                             sent: bool) {
    var rotates := !spec.fromRef && (Requested(role) || Scheduled(spec, role, now));
    && role'.request == (if Requested(role) then role.annotation else role.request)
    && role'.rotatedAt == (if spec.fromRef then None
                           else if secrets == [] || rotates || (role.rotatedAt.None? && spec.every > 0) then Some(now)
                           else role.rotatedAt)
    && (secrets == [] ==> sent)
    && (spec.fromRef ==> password == spec.ref)
    && (!spec.fromRef && secrets != [] && !rotates ==> password == secrets[|secrets| - 1].password)
    // a rotation makes a password that the Secret never had
    && (rotates ==> forall s <- secrets :: s.password != password)
    && (secrets != [] ==>
          var last := secrets[|secrets| - 1];
          sent <==> rotates || (spec.fromRef && Requested(role))
                    || !OnRecord(role, last, if spec.fromRef then spec.ref else last.password))
  }

  lemma ReconciledBy(spec: Spec, now: int, s: Snapshot, d: Decision, ri: nat, si: Option<nat>, password: string,
                     sent: bool)
    requires Ok(spec, s.roles, s.secrets) && Resolved(spec, now, s, d, ri, si)
    requires ri == Last(s.roles) && (si.Some? ==> si.value == Last(s.secrets)) && sent == (!d.applied || d.force)
    requires if sent then password == d.value else password == PasswordNow(s.secrets)
    ensures Reconciled(spec, now, s.roles[ri], s.secrets, RecordPassword(spec, s.roles[ri], d, now), password, sent)
  {
    if d.applied {
      AppliedIsIn(spec, s, ri, si.value, d.value);
    }
    assert s.secrets != [] ==> s.secrets[Last(s.secrets)] in s.secrets;
  }

  method CarryOut(w: World, d: Decision, ri: nat, si: Option<nat>) returns (completed: bool, sent: bool)
    requires w.Inv() && Resolved(w.spec, w.now, w.State(), d, ri, si)
    modifies w`pg, w`secrets, w`roles, w`withdrawn
    ensures w.Inv() && (old(w.withdrawn) ==> w.withdrawn)
    ensures completed ==>
              Completed(old(w.State()), w.State(), ri) && (Matches(w.pg, w.secrets) <==> old(w.Recoverable()))
    ensures completed ==> AtRest(w.spec, w.State(), w.now)
    ensures old(w.Recoverable()) && !w.withdrawn ==> w.Recoverable()
    ensures !sent ==> w.pg == old(w.pg) && PasswordNow(w.secrets) == old(PasswordNow(w.secrets))
    ensures w.reliable && ri == Last(old(w.roles)) && (si.Some? ==> si.value == Last(old(w.secrets))) ==>
              completed && Reconciled(w.spec, w.now, old(w.roles[Last(w.roles)]), old(w.secrets),
                                      w.roles[Last(w.roles)], PasswordNow(w.secrets), sent)
  {
    ghost var start := w.State();
    sent := !d.applied || d.force;
    completed := WriteAll(w, d, ri, si, sent);
    if completed && ri == Last(start.roles) && (si.Some? ==> si.value == Last(start.secrets)) {
      ReconciledBy(w.spec, w.now, start, d, ri, si, PasswordNow(w.secrets), sent);
    }
  }

  /** A reconcile. sent: a password was sent to PostgreSQL. It completes when its last write, the status
      update, succeeds. */
  method Reconcile(w: World) returns (completed: bool, sent: bool)
    requires w.Inv()
    modifies w`pg, w`secrets, w`roles, w`withdrawn
    ensures w.Inv() && (old(w.withdrawn) ==> w.withdrawn)
    // completed, Secret and PostgreSQL agree if and only if they did or the Role (as it was when the
    // status was written) called for a password to be sent
    ensures completed ==> |w.roles| >= 2
    ensures completed ==>
              (Matches(w.pg, w.secrets) <==> CanMatch(w.spec, old(w.pg), old(w.secrets), w.roles[|w.roles| - 2], w.now))
    ensures completed ==> AtRest(w.spec, w.State(), w.now)
    ensures old(w.Recoverable()) && !w.withdrawn ==> w.Recoverable() && (completed ==> Matches(w.pg, w.secrets))
    ensures !sent ==> w.pg == old(w.pg) && PasswordNow(w.secrets) == old(PasswordNow(w.secrets))
    ensures w.reliable ==> completed && (Matches(w.pg, w.secrets) <==> old(w.Recoverable()))
    ensures w.reliable ==>
              Reconciled(w.spec, w.now, old(w.roles[|w.roles| - 1]), old(w.secrets), w.roles[|w.roles| - 1],
                         PasswordNow(w.secrets), sent)
  {
    completed, sent := false, false;
    ghost var start := w.State();
    var d, ri, si, ok := ReadAndResolve(w);
    ghost var decided := w.State();
    if ok {
      completed, sent := CarryOut(w, d, ri, si);
      if completed {
        CompletedMeans(w.spec, old(w.pg), w.now, start, decided, w.State(), ri, Matches(w.pg, w.secrets));
      }
    }
    SamePassword(start, decided);
  }

  method ReadAndResolve(w: World) returns (d: Decision, ri: nat, si: Option<nat>, ok: bool)
    requires w.Inv()
    modifies w`secrets, w`roles, w`withdrawn
    ensures w.Inv() && Interferes(old(w.State()), w.State()) && (ok ==> Resolved(w.spec, w.now, w.State(), d, ri, si))
    ensures old(w.Recoverable()) && !w.withdrawn ==> w.Recoverable()
    ensures w.reliable ==>
              ok && w.State() == old(w.State()) && ri == Last(w.roles) && (si.Some? ==> si.value == Last(w.secrets))
  {
    ri := w.ReadRole();
    si := w.ReadSecret();
    d, ri, si, ok := ResolvePassword(w, ri, si);
    if old(w.Recoverable()) && !w.withdrawn {
      StillCanMatch(w.spec, w.pg, w.now, old(w.State()), w.State());
    }
  }

  lemma SamePassword(a: Snapshot, b: Snapshot)
    requires Interferes(a, b)
    ensures PasswordNow(a.secrets) == PasswordNow(b.secrets)
  {
    assert a.secrets != [] ==> b.secrets[Last(b.secrets)] == a.secrets[Last(a.secrets)];
  }

  lemma CompletedMeans(spec: Spec, pg: string, now: int, start: Snapshot, decided: Snapshot, end: Snapshot, ri: nat,
                       match_: bool)
    requires Interferes(start, decided) && Completed(decided, end, ri)
    requires match_ <==> CanMatch(spec, pg, decided.secrets, decided.roles[Last(decided.roles)], now)
    ensures |end.roles| >= 2 && (match_ <==> CanMatch(spec, pg, start.secrets, end.roles[|end.roles| - 2], now))
  {
    var role := decided.roles[Last(decided.roles)];
    assert end.roles[|end.roles| - 2] == end.roles[..|decided.roles|][Last(decided.roles)] == role;
    SameMatch(spec, pg, now, start, decided, role);
  }

  lemma SameMatch(spec: Spec, pg: string, now: int, a: Snapshot, b: Snapshot, role: Role)
    requires Interferes(a, b)
    ensures CanMatch(spec, pg, a.secrets, role, now) <==> CanMatch(spec, pg, b.secrets, role, now)
  {
    assert a.secrets != [] ==> b.secrets[Last(b.secrets)] == a.secrets[Last(a.secrets)];
  }

  // ---------- runs ----------

  /** With the password on record as applied and no rotation due, a value of the rotate-password
      annotation has a password sent if and only if it is a new request. */
  lemma OnlyANewRequestSends(spec: Spec, role: Role, secret: Secret, now: int, value: string)
    requires Applied(role, secret, if spec.fromRef then spec.ref else secret.password) && !RotationDue(spec, role, now)
    ensures WillSend(spec, role.(annotation := value), secret, now) <==> value != "" && value != role.request
  {
  }

  /** A rotation request whose password is sent; then the operator crashes before the Secret is written,
      and the request is withdrawn. */
  method WithdrawnRequest(w: World, value: string)
    requires w.Inv() && w.reliable && !w.spec.fromRef && w.spec.every == 0
    requires Matches(w.pg, w.secrets) && w.secrets[Last(w.secrets)].fingerprint.Some?
    requires value != "" && value != w.roles[Last(w.roles)].request
    modifies w`pg, w`secrets, w`roles, w`withdrawn
    ensures w.Inv() && !w.Recoverable()
  {
    w.Annotate(value);
    var ri := w.ReadRole();
    var si := w.ReadSecret();
    var d, ok;
    d, ri, si, ok := ResolvePassword(w, ri, si);
    var r := SendPassword(w, d, ri, si, !d.applied || d.force);
    assert w.secrets[Last(w.secrets)] in w.secrets;
    w.Annotate("");
  }

  /** The reconciles after that complete and leave the Secret without PostgreSQL's password. */
  method WithdrawnRequestComesApart(w: World, value: string, reconciles: nat) returns (completed: bool)
    requires w.Inv() && w.reliable && !w.spec.fromRef && w.spec.every == 0
    requires Matches(w.pg, w.secrets) && w.secrets[Last(w.secrets)].fingerprint.Some?
    requires value != "" && value != w.roles[Last(w.roles)].request
    modifies w`pg, w`secrets, w`roles, w`withdrawn
    ensures w.Inv() && completed && !Matches(w.pg, w.secrets)
  {
    WithdrawnRequest(w, value);
    completed := true;
    for n := 0 to reconciles
      invariant w.Inv() && completed && !w.Recoverable()
    {
      var sent;
      completed, sent := Reconcile(w);
      assert w.secrets[Last(w.secrets)] in w.secrets;
    }
  }

  datatype Step = Reconciles | Annotates(value: string) | Touches | Waits(time: nat)

  /** Any run: reconciles with stale reads, failures and crashes, others acting at any moment, and time.
      As long as no rotation request is withdrawn (the annotation removed, or set back to the request
      acted on last), every reconcile that completes leaves PostgreSQL's password in the Secret. */
  method Run(w: World, steps: seq<Step>) returns (apart: bool)
    requires w.Inv() && w.Recoverable()
    modifies w`pg, w`secrets, w`roles, w`withdrawn, w`now
    ensures w.Inv()
    ensures !w.withdrawn ==> !apart && w.Recoverable()
  {
    apart := false;
    for n := 0 to |steps|
      invariant w.Inv() && (!w.withdrawn ==> !apart && w.Recoverable())
    {
      match steps[n]
      case Reconciles =>
        var completed, sent := Reconcile(w);
        apart := apart || (completed && (w.secrets == [] || w.secrets[Last(w.secrets)].password != w.pg));
      case Annotates(value) =>
        w.Annotate(value);
      case Touches =>
        w.Touch();
      case Waits(time) =>
        w.now := w.now + time;
    }
  }
}
