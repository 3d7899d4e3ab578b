/** What installing or updating an extension runs as a superuser: its dependencies, the versions whose
    scripts may run, and the check of them all against the policy. */
module ExtensionPlan {
  import opened Option
  import opened Decimal
  import opened ExtensionVersions

  datatype Info = Info(name: string, version: string, trusted: bool, required: seq<string>)

  /** The extensions installed in the database, the versions the server has, the default ones, and the
      update paths (of one extension, between two versions; from "": all that end there). */
  datatype Server = Server(installed: set<string>, versions: map<(string, string), Info>, defaults: map<string, string>,
                           paths: map<(string, string, string), seq<seq<string>>>)

  ghost predicate Valid(s: Server) {
    && (forall k <- s.versions :: s.versions[k].name == k.0 && s.versions[k].version == k.1 != "")
    && (forall k <- s.paths :: forall p <- s.paths[k] :: p != [] && "" !in p)
  }

  /** pg_available_extension_versions; version "" is the default one. */
  function Version(s: Server, name: string, version: string): (info: Option<Info>)
    ensures (name, version) in s.versions && version != "" ==> info == Some(s.versions[(name, version)])
    ensures name in s.defaults && (name, s.defaults[name]) in s.versions && version == "" ==>
              info == Some(s.versions[(name, s.defaults[name])])
    ensures info.Some? && version != "" ==> (name, version) in s.versions
    ensures info.Some? && version == "" && name in s.defaults ==> (name, s.defaults[name]) in s.versions
  {
    var v := if version == "" && name in s.defaults then s.defaults[name] else version;
    if (name, v) in s.versions then Some(s.versions[(name, v)]) else None
  }

  function Paths(s: Server, name: string, from: string, to: string): (paths: seq<seq<string>>)
    ensures forall p :: p in paths <==> (name, from, to) in s.paths && p in s.paths[(name, from, to)]
  {
    if (name, from, to) in s.paths then s.paths[(name, from, to)] else []
  }

  // ---------- queries: each may fail, unless sure, and then it tells nothing ----------

  method IsInstalled(s: Server, sure: bool, name: string) returns (installed: bool, ok: bool)
    ensures ok ==> (installed <==> name in s.installed)
    ensures sure ==> ok
  {
    installed, ok := *, *;
    ok := ok || sure;
    if ok {
      installed := name in s.installed;
    }
  }

  method FindVersion(s: Server, sure: bool, name: string, version: string) returns (info: Option<Info>, ok: bool)
    ensures ok ==> info == Version(s, name, version)
    ensures sure ==> ok
  {
    info, ok := *, *;
    ok := ok || sure;
    if ok {
      info := Version(s, name, version);
    }
  }

  method FindPaths(s: Server, sure: bool, name: string, from: string, to: string)
      returns (paths: seq<seq<string>>, ok: bool)
    ensures ok ==> paths == Paths(s, name, from, to)
    ensures sure ==> ok
  {
    paths, ok := *, *;
    ok := ok || sure;
    if ok {
      paths := Paths(s, name, from, to);
    }
  }

  // ---------- dependencies ----------

  ghost predicate Installable(s: Server, name: string) {
    name !in s.installed && Version(s, name, "").Some?
  }

  /** CASCADE would install name on the way to info, and go on with what it requires. */
  ghost predicate Expands(s: Server, info: Info, name: string) {
    name != info.name && Installable(s, name)
  }

  /** A chain of requirements from info on, through extensions that CASCADE would install. */
  ghost predicate Chain(s: Server, info: Info, p: seq<string>) {
    && p != [] && p[0] in info.required
    && forall i :: 0 <= i < |p| - 1 ==> Expands(s, info, p[i]) && p[i + 1] in Version(s, p[i], "").value.required
  }

  ghost predicate Required(s: Server, info: Info, name: string) {
    exists p :: Chain(s, info, p) && p[|p| - 1] == name
  }

  /** What info requires, directly or not (itself, in a cycle, aside). */
  ghost predicate Needs(s: Server, info: Info, name: string) {
    name != info.name && Required(s, info, name)
  }

  lemma RequiredFirst(s: Server, info: Info, name: string)
    requires name in info.required
    ensures Required(s, info, name)
  {
    assert Chain(s, info, [name]);
  }

  lemma RequiredNext(s: Server, info: Info, name: string, next: string)
    requires Required(s, info, name) && Expands(s, info, name) && next in Version(s, name, "").value.required
    ensures Required(s, info, next)
  {
    var p :| Chain(s, info, p) && p[|p| - 1] == name;
    assert Chain(s, info, p + [next]);
  }

  /** Everything required is in a set that holds info's requirements and those of what it expands. */
  ghost predicate Closed(s: Server, info: Info, seen: set<string>, queue: seq<string>) {
    && (forall n <- info.required :: n in seen || n in queue)
    && (forall e <- seen ::
          Expands(s, info, e) ==> forall n <- Version(s, e, "").value.required :: n in seen || n in queue)
  }

  lemma {:induction false} ChainEndsIn(s: Server, info: Info, seen: set<string>, p: seq<string>)
    requires Closed(s, info, seen, []) && Chain(s, info, p)
    ensures p[|p| - 1] in seen
    decreases |p|
  {
    if |p| > 1 {
      var q := p[..|p| - 1];
      assert Chain(s, info, q);
      ChainEndsIn(s, info, seen, q);
      assert Expands(s, info, p[|p| - 2]);
    }
  }

  ghost predicate NamesDiffer(infos: seq<Info>) {
    forall i, j :: 0 <= i < j < |infos| ==> infos[i].name != infos[j].name
  }

  ghost predicate NoDuplicates(names: seq<string>) {
    forall i, j :: 0 <= i < j < |names| ==> names[i] != names[j]
  }

  /** The results split what has been seen. */
  ghost predicate Splits(s: Server, info: Info, seen: set<string>, installed: seq<string>, toInstall: seq<Info>,
                         unavailable: seq<string>) {
    && (forall n :: n in installed <==> n in seen && n != info.name && n in s.installed)
    && (forall d :: d in toInstall <==> d.name in seen && Expands(s, info, d.name) && Version(s, d.name, "") == Some(d))
    && (forall n :: n in unavailable <==> n in seen && n != info.name && n !in s.installed && !Installable(s, n))
    && NoDuplicates(installed) && NamesDiffer(toInstall) && NoDuplicates(unavailable)
  }

  lemma VersionNames(s: Server, name: string)
    requires Valid(s) && Version(s, name, "").Some?
    ensures Version(s, name, "").value.name == name && exists v :: (name, v) in s.versions
  {
    var v := if name in s.defaults then s.defaults[name] else "";
    assert (name, v) in s.versions;
  }

  /** Whatever is in the queue or has been seen is required. */
  ghost predicate Sound(s: Server, info: Info, seen: set<string>, queue: seq<string>) {
    && (forall n <- queue :: Required(s, info, n))
    && (forall n <- seen :: n == info.name || Required(s, info, n))
  }

  lemma NextSeen(s: Server, info: Info, seen: set<string>, name: string, rest: seq<string>, more: seq<string>)
    requires Closed(s, info, seen, [name] + rest) && Sound(s, info, seen, [name] + rest)
    requires name !in seen && more == if Expands(s, info, name) then Version(s, name, "").value.required else []
    ensures Closed(s, info, seen + {name}, rest + more) && Sound(s, info, seen + {name}, rest + more)
  {
    assert name in [name] + rest;
    forall n <- rest + more ensures Required(s, info, n) {
      if n in rest {
        assert n in [name] + rest;
      } else {
        RequiredNext(s, info, name, n);
      }
    }
    forall n <- info.required ensures n in seen + {name} || n in rest + more {
      assert n in seen || n in [name] + rest;
    }
    forall e <- seen + {name} | Expands(s, info, e)
      ensures forall n <- Version(s, e, "").value.required :: n in seen + {name} || n in rest + more {
      forall n <- Version(s, e, "").value.required ensures n in seen + {name} || n in rest + more {
        if e in seen {
          assert n in seen || n in [name] + rest;
        }
      }
    }
  }

  lemma SeenBefore(s: Server, info: Info, seen: set<string>, name: string, rest: seq<string>)
    requires Closed(s, info, seen, [name] + rest) && Sound(s, info, seen, [name] + rest) && name in seen
    ensures Closed(s, info, seen, rest) && Sound(s, info, seen, rest)
  {
    assert forall n :: n in [name] + rest <==> n == name || n in rest;
  }

  lemma NothingSeen(s: Server, info: Info)
    ensures Closed(s, info, {info.name}, info.required) && Sound(s, info, {info.name}, info.required)
    ensures Splits(s, info, {info.name}, [], [], [])
  {
    forall n <- info.required ensures Required(s, info, n) {
      RequiredFirst(s, info, n);
    }
  }

  /** The names with a version on the server. */
  ghost function Known(s: Server): set<string> {
    set k <- s.versions :: k.0
  }

  /** Only a known name brings new ones into the queue. */
  lemma Shrinks(s: Server, info: Info, seen: set<string>, name: string)
    requires Valid(s) && name !in seen
    ensures Known(s) - (seen + {name}) <= Known(s) - seen
    ensures Expands(s, info, name) ==> Known(s) - (seen + {name}) != Known(s) - seen
  {
    if Expands(s, info, name) {
      VersionNames(s, name);
      assert name in Known(s) - seen;
    }
  }

  /** What info needs: installed, to be installed (at the default version), and not there. */
  ghost predicate Resolved(s: Server, info: Info, installed: seq<string>, toInstall: seq<Info>,
                           unavailable: seq<string>) {
    && (forall n :: n in installed <==> Needs(s, info, n) && n in s.installed)
    && (forall d ::
          d in toInstall <==> Needs(s, info, d.name) && Installable(s, d.name) && Version(s, d.name, "") == Some(d))
    && (forall n :: n in unavailable <==> Needs(s, info, n) && n !in s.installed && !Installable(s, n))
    && NoDuplicates(installed) && NamesDiffer(toInstall) && NoDuplicates(unavailable)
  }

  lemma SeenIsNeeded(s: Server, info: Info, seen: set<string>)
    requires Closed(s, info, seen, []) && Sound(s, info, seen, [])
    ensures forall n :: Needs(s, info, n) <==> n in seen && n != info.name
  {
    forall n | Needs(s, info, n) ensures n in seen {
      var p :| Chain(s, info, p) && p[|p| - 1] == n;
      ChainEndsIn(s, info, seen, p);
    }
  }

  lemma AllSplit(s: Server, info: Info, seen: set<string>, installed: seq<string>, toInstall: seq<Info>,
                 unavailable: seq<string>)
    requires Closed(s, info, seen, []) && Sound(s, info, seen, [])
    requires Splits(s, info, seen, installed, toInstall, unavailable)
    ensures Resolved(s, info, installed, toInstall, unavailable)
  {
    SeenIsNeeded(s, info, seen);
  }

  /** Looks up a name that has not been seen, and sorts it in; more is what it requires, if it is to be
      installed. */
  method Look(s: Server, sure: bool, info: Info, name: string, seen: set<string>, installed: seq<string>,
              toInstall: seq<Info>, unavailable: seq<string>)
      returns (installed': seq<string>, toInstall': seq<Info>, unavailable': seq<string>, more: seq<string>, ok: bool)
    requires Valid(s) && name !in seen && name != info.name
    requires Splits(s, info, seen, installed, toInstall, unavailable)
    ensures ok ==> Splits(s, info, seen + {name}, installed', toInstall', unavailable')
    ensures ok ==> more == if Expands(s, info, name) then Version(s, name, "").value.required else []
    ensures sure ==> ok
  {
    installed', toInstall', unavailable', more := installed, toInstall, unavailable, [];
    var found;
    found, ok := IsInstalled(s, sure, name);
    if !ok {
      return;
    }
    if found {
      installed' := installed + [name];
      return;
    }
    var d;
    d, ok := FindVersion(s, sure, name, "");
    if !ok {
      return;
    }
    if d.None? {
      unavailable' := unavailable + [name];
    } else {
      VersionNames(s, name);
      toInstall', more := toInstall + [d.value], d.value.required;
    }
  }

  /** What has been seen is sorted in, and what it requires is seen or in the queue. */
  ghost predicate Found(s: Server, info: Info, seen: set<string>, queue: seq<string>, installed: seq<string>,
                        toInstall: seq<Info>, unavailable: seq<string>) {
    && Closed(s, info, seen, queue) && Sound(s, info, seen, queue)
    && info.name in seen && Splits(s, info, seen, installed, toInstall, unavailable)
  }

  /** The next name in the queue, which has not been seen. */
  method Visit(s: Server, sure: bool, info: Info, name: string, rest: seq<string>, seen: set<string>,
               installed: seq<string>, toInstall: seq<Info>, unavailable: seq<string>)
      returns (queue: seq<string>, installed': seq<string>, toInstall': seq<Info>, unavailable': seq<string>, ok: bool)
    requires Valid(s) && name !in seen && Found(s, info, seen, [name] + rest, installed, toInstall, unavailable)
    ensures ok ==> Found(s, info, seen + {name}, queue, installed', toInstall', unavailable')
    ensures Known(s) - (seen + {name}) <= Known(s) - seen
    ensures ok ==> Known(s) - (seen + {name}) != Known(s) - seen || queue == rest
    ensures sure ==> ok
  {
    var more;
    installed', toInstall', unavailable', more, ok := Look(s, sure, info, name, seen, installed, toInstall,
                                                           unavailable);
    queue := rest + more;
    Shrinks(s, info, seen, name);
    if ok {
      NextSeen(s, info, seen, name, rest, more);
    }
  }

  /** The queue with a seen map; it comes to an end on cycles, too. */
  method Dependencies(s: Server, sure: bool, info: Info)
      returns (installed: seq<string>, toInstall: seq<Info>, unavailable: seq<string>, ok: bool)
    requires Valid(s)
    ensures ok ==> Resolved(s, info, installed, toInstall, unavailable)
    ensures sure ==> ok
  {
    installed, toInstall, unavailable, ok := [], [], [], true;
    var seen := {info.name};
    var queue := info.required;
    NothingSeen(s, info);
    while queue != []
      invariant ok && Found(s, info, seen, queue, installed, toInstall, unavailable)
      decreases Known(s) - seen, |queue|
    {
      var name, rest := queue[0], queue[1..];
      assert queue == [name] + rest;
      if name in seen {
        SeenBefore(s, info, seen, name, rest);
        queue := rest;
      } else {
        queue, installed, toInstall, unavailable, ok := Visit(s, sure, info, name, rest, seen, installed, toInstall,
                                                              unavailable);
        if !ok {
          return;
        }
        seen := seen + {name};
      }
    }
    AllSplit(s, info, seen, installed, toInstall, unavailable);
  }

  // ---------- scripts ----------

  /** The server lists the version, and as a trusted one. */
  ghost predicate Trusted(s: Server, name: string, version: string) {
    var info := Version(s, name, version);
    info.Some? && info.value.trusted
  }

  /** Installing this version may run the scripts of version v: it is the version itself, or on an update
      path to it that starts at a version which the server lists. */
  ghost predicate InstallRuns(s: Server, name: string, version: string, v: string) {
    v == version
    || ((name, "", version) in s.paths && exists p <- s.paths[(name, "", version)] :: Reaches(s, name, p, v))
  }

  ghost predicate Reaches(s: Server, name: string, path: seq<string>, v: string) {
    path != [] && (name, path[0]) in s.versions && v in path
  }

  ghost predicate Reached(s: Server, name: string, paths: seq<seq<string>>, v: string) {
    exists p <- paths :: Reaches(s, name, p, v)
  }

  lemma ReachedNext(s: Server, name: string, paths: seq<seq<string>>, i: nat, v: string)
    requires i < |paths|
    ensures Reached(s, name, paths[..i + 1], v) <==> Reached(s, name, paths[..i], v) || Reaches(s, name, paths[i], v)
  {
    assert paths[..i + 1] == paths[..i] + [paths[i]];
    assert forall p :: p in paths[..i + 1] <==> p in paths[..i] || p == paths[i];
  }

  method InstallVersions(s: Server, sure: bool, name: string, version: string) returns (versions: set<string>, ok: bool)
    requires Valid(s)
    ensures ok ==> forall v :: v in versions <==> InstallRuns(s, name, version, v)
    ensures sure ==> ok
  {
    versions := {version};
    var paths;
    paths, ok := FindPaths(s, sure, name, "", version);
    if !ok {
      return;
    }
    for i := 0 to |paths|
      invariant ok && forall v :: v in versions <==> v == version || Reached(s, name, paths[..i], v)
    {
      var path := paths[i];
      assert path in s.paths[(name, "", version)] && path[0] in path;
      var info;
      info, ok := FindVersion(s, sure, name, path[0]);
      if !ok {
        return;
      }
      if info.Some? {
        versions := versions + set v <- path;
      }
      forall v ensures v in versions <==> v == version || Reached(s, name, paths[..i + 1], v) {
        ReachedNext(s, name, paths, i, v);
      }
    }
    assert paths[..|paths|] == paths;
  }

  /** Every script is trusted, or the policy allows the extension. */
  ghost predicate MayInstall(s: Server, policy: set<string>, name: string, version: string) {
    name in policy || forall v :: InstallRuns(s, name, version, v) ==> Trusted(s, name, v)
  }

  /** The version, and every version on every path to it that starts at one the server lists, is listed
      as trusted. */
  ghost predicate Vetted(s: Server, name: string, version: string) {
    && (name, version) in s.versions && s.versions[(name, version)].trusted
    && forall p, u ::
         (name, "", version) in s.paths && p in s.paths[(name, "", version)] && u in p && (name, p[0]) in s.versions ==>
           (name, u) in s.versions && s.versions[(name, u)].trusted
  }

  /** What may be installed outside the policy. */
  lemma VettedMayInstall(s: Server, policy: set<string>, name: string, version: string)
    requires Valid(s) && version != ""
    ensures MayInstall(s, policy, name, version) <==> name in policy || Vetted(s, name, version)
  {
    if MayInstall(s, policy, name, version) && name !in policy {
      assert InstallRuns(s, name, version, version);
      forall p, u | (name, "", version) in s.paths && p in s.paths[(name, "", version)] && u in p
                    && (name, p[0]) in s.versions
        ensures (name, u) in s.versions && s.versions[(name, u)].trusted {
        assert Reaches(s, name, p, u) && InstallRuns(s, name, version, u);
      }
    }
    if Vetted(s, name, version) {
      forall v | InstallRuns(s, name, version, v) ensures Trusted(s, name, v) {
        if v != version {
          var p :| p in s.paths[(name, "", version)] && Reaches(s, name, p, v);
        }
      }
    }
  }

  ghost predicate RunsUntrusted(s: Server, name: string, version: string) {
    exists v :: InstallRuns(s, name, version, v) && !Trusted(s, name, v)
  }

  method CheckVersions(s: Server, sure: bool, policy: set<string>, name: string, versions: set<string>)
      returns (problem: bool, untrusted: bool, ok: bool)
    ensures ok ==>
          (untrusted <==> exists v <- versions :: !Trusted(s, name, v)) && (problem <==> untrusted && name !in policy)
    ensures sure ==> ok
  {
    problem, untrusted, ok := false, false, true;
    var rest := versions;
    while rest != {}
      invariant ok && rest <= versions && (untrusted <==> exists v <- versions - rest :: !Trusted(s, name, v))
      decreases rest
    {
      var v :| v in rest;
      assert versions - (rest - {v}) == versions - rest + {v};
      rest := rest - {v};
      var info;
      info, ok := FindVersion(s, sure, name, v);
      if !ok {
        return;
      }
      untrusted := untrusted || info.None? || !info.value.trusted;
    }
    assert versions - rest == versions;
    problem := untrusted && name !in policy;
  }

  method CheckInstall(s: Server, sure: bool, policy: set<string>, name: string, version: string)
      returns (problem: bool, untrusted: bool, ok: bool)
    requires Valid(s)
    ensures ok ==>
              (problem <==> !MayInstall(s, policy, name, version)) && (untrusted <==> RunsUntrusted(s, name, version))
    ensures sure ==> ok
  {
    var versions;
    versions, ok := InstallVersions(s, sure, name, version);
    if !ok {
      return false, false, false;
    }
    problem, untrusted, ok := CheckVersions(s, sure, policy, name, versions);
  }

  // ---------- installing ----------

  datatype Wish = Wish(name: string, version: string, cascade: bool)

  datatype Plan = Plan(info: Info, installedDeps: seq<string>, toInstall: seq<Info>, strict: bool)

  datatype Result = Planned(plan: Plan) | NotAvailable | NotAllowed | DependencyMissing | Error

  /** The extension and all that it needs can be installed, and the policy allows every script. */
  ghost predicate Installs(s: Server, policy: set<string>, w: Wish) {
    var info := Version(s, w.name, w.version);
    && info.Some? && MayInstall(s, policy, w.name, info.value.version)
    && forall n :: Needs(s, info.value, n) ==>
         n in s.installed || (w.cascade && Installable(s, n)
                              && MayInstall(s, policy, n, Version(s, n, "").value.version))
  }

  /** The plan names everything that will be installed, and whether a script of it is not trusted. */
  ghost predicate Describes(s: Server, w: Wish, plan: Plan) {
    && Version(s, w.name, w.version) == Some(plan.info)
    && Resolved(s, plan.info, plan.installedDeps, plan.toInstall, [])
    && (plan.strict <==> RunsUntrusted(s, w.name, plan.info.version) || exists d <- plan.toInstall ::
          RunsUntrusted(s, d.name, d.version))
  }

  /** Why an extension is refused. */
  ghost predicate Refused(s: Server, policy: set<string>, w: Wish, r: Result) {
    var info := Version(s, w.name, w.version);
    match r
    case NotAvailable => info.None? || exists n :: Needs(s, info.value, n) && n !in s.installed && !Installable(s, n)
    case NotAllowed => info.Some? && (!MayInstall(s, policy, w.name, info.value.version)
      || (w.cascade && exists n ::
            Needs(s, info.value, n) && Installable(s, n) && !MayInstall(s, policy, n, Version(s, n, "").value.version)))
    case DependencyMissing => !w.cascade && info.Some? && exists n :: Needs(s, info.value, n) && Installable(s, n)
    case _ => true
  }

  method CheckDependencies(s: Server, sure: bool, policy: set<string>, toInstall: seq<Info>)
      returns (refused: bool, untrusted: bool, ok: bool)
    requires Valid(s)
    ensures ok ==> (refused <==> exists d <- toInstall :: !MayInstall(s, policy, d.name, d.version))
    ensures ok ==> (untrusted <==> exists d <- toInstall :: RunsUntrusted(s, d.name, d.version))
    ensures sure ==> ok
  {
    refused, untrusted, ok := false, false, true;
    for i := 0 to |toInstall|
      invariant refused <==> exists d <- toInstall[..i] :: !MayInstall(s, policy, d.name, d.version)
      invariant untrusted <==> exists d <- toInstall[..i] :: RunsUntrusted(s, d.name, d.version)
    {
      assert toInstall[..i + 1] == toInstall[..i] + [toInstall[i]];
      var problem, more;
      problem, more, ok := CheckInstall(s, sure, policy, toInstall[i].name, toInstall[i].version);
      if !ok {
        return;
      }
      refused, untrusted := refused || problem, untrusted || more;
    }
    assert toInstall[..|toInstall|] == toInstall;
    ok := true;
  }

  lemma NeededIsPlanned(s: Server, info: Info, installed: seq<string>, toInstall: seq<Info>, unavailable: seq<string>,
                        n: string)
    requires Valid(s) && Resolved(s, info, installed, toInstall, unavailable)
    ensures Needs(s, info, n) && Installable(s, n) <==> exists d <- toInstall :: d.name == n
    ensures forall d <- toInstall :: d.name == n ==> Version(s, n, "") == Some(d)
    ensures Needs(s, info, n) && n !in s.installed && n !in unavailable ==> Installable(s, n)
  {
    if Needs(s, info, n) && Installable(s, n) {
      VersionNames(s, n);
      assert Version(s, n, "").value in toInstall;
    }
  }

  lemma PlannedInstalls(s: Server, policy: set<string>, w: Wish, info: Info, installed: seq<string>,
                        toInstall: seq<Info>)
    requires Valid(s) && Version(s, w.name, w.version) == Some(info) && MayInstall(s, policy, w.name, info.version)
    requires Resolved(s, info, installed, toInstall, []) && (toInstall == [] || w.cascade)
    requires forall d <- toInstall :: MayInstall(s, policy, d.name, d.version)
    ensures Installs(s, policy, w)
  {
    forall n | Needs(s, info, n)
      ensures n in s.installed || (w.cascade && Installable(s, n)
                                   && MayInstall(s, policy, n, Version(s, n, "").value.version)) {
      NeededIsPlanned(s, info, installed, toInstall, [], n);
      if n !in s.installed {
        var d :| d in toInstall && d.name == n;
        assert MayInstall(s, policy, d.name, d.version);
      }
    }
  }

  /** The refusals that a dependency causes. */
  lemma RefusedFor(s: Server, policy: set<string>, w: Wish, info: Info, installed: seq<string>, toInstall: seq<Info>,
                   unavailable: seq<string>, n: string)
    requires Valid(s) && Version(s, w.name, w.version) == Some(info)
    requires Resolved(s, info, installed, toInstall, unavailable)
    ensures n in unavailable ==> Refused(s, policy, w, NotAvailable) && !Installs(s, policy, w)
    ensures !w.cascade && (exists d <- toInstall :: d.name == n) ==>
              Refused(s, policy, w, DependencyMissing) && !Installs(s, policy, w)
    ensures w.cascade && (exists d <- toInstall :: d.name == n && !MayInstall(s, policy, d.name, d.version)) ==>
              Refused(s, policy, w, NotAllowed) && !Installs(s, policy, w)
  {
    NeededIsPlanned(s, info, installed, toInstall, unavailable, n);
  }

  /** The extension itself and all that CASCADE will bring: in the policy, or vetted. */
  ghost predicate AllVetted(s: Server, policy: set<string>, plan: Plan) {
    && (plan.info.name in policy || Vetted(s, plan.info.name, plan.info.version))
    && forall d <- plan.toInstall :: d.name in policy || Vetted(s, d.name, d.version)
  }

  method PlanCreate(s: Server, sure: bool, policy: set<string>, w: Wish) returns (r: Result)
    requires Valid(s)
    ensures r.Planned? ==> Installs(s, policy, w) && Describes(s, w, r.plan) && AllVetted(s, policy, r.plan)
    ensures !r.Planned? && !r.Error? ==> !Installs(s, policy, w) && Refused(s, policy, w, r)
    ensures sure ==> !r.Error?
  {
    var info, ok := FindVersion(s, sure, w.name, w.version);
    if !ok {
      return Error;
    }
    if info.None? {
      return NotAvailable;
    }
    var problem, strict;
    problem, strict, ok := CheckInstall(s, sure, policy, w.name, info.value.version);
    if !ok {
      return Error;
    }
    if problem {
      return NotAllowed;
    }
    r := PlanDependencies(s, sure, policy, w, info.value, strict);
    if r.Planned? {
      PlannedIsVetted(s, policy, w, r.plan);
    }
  }

  lemma PlannedIsVetted(s: Server, policy: set<string>, w: Wish, plan: Plan)
    requires Valid(s) && Installs(s, policy, w) && Describes(s, w, plan)
    ensures AllVetted(s, policy, plan)
  {
    VettedMayInstall(s, policy, plan.info.name, plan.info.version);
    forall d <- plan.toInstall ensures d.name in policy || Vetted(s, d.name, d.version) {
      assert Needs(s, plan.info, d.name);
      VettedMayInstall(s, policy, d.name, d.version);
    }
  }

  method PlanDependencies(s: Server, sure: bool, policy: set<string>, w: Wish, info: Info, strict: bool)
      returns (r: Result)
    requires Valid(s) && Version(s, w.name, w.version) == Some(info) && MayInstall(s, policy, w.name, info.version)
    requires strict <==> RunsUntrusted(s, w.name, info.version)
    ensures r.Planned? ==> Installs(s, policy, w) && Describes(s, w, r.plan)
    ensures !r.Planned? && !r.Error? ==> !Installs(s, policy, w) && Refused(s, policy, w, r)
    ensures sure ==> !r.Error?
  {
    var installed, toInstall, unavailable, ok;
    installed, toInstall, unavailable, ok := Dependencies(s, sure, info);
    if !ok {
      return Error;
    }
    if unavailable != [] {
      RefusedFor(s, policy, w, info, installed, toInstall, unavailable, unavailable[0]);
      return NotAvailable;
    }
    if toInstall != [] && !w.cascade {
      RefusedFor(s, policy, w, info, installed, toInstall, unavailable, toInstall[0].name);
      return DependencyMissing;
    }
    var refused, untrusted;
    refused, untrusted, ok := CheckDependencies(s, sure, policy, toInstall);
    if !ok {
      return Error;
    }
    if refused {
      ghost var d :| d in toInstall && !MayInstall(s, policy, d.name, d.version);
      RefusedFor(s, policy, w, info, installed, toInstall, unavailable, d.name);
      return NotAllowed;
    }
    PlannedInstalls(s, policy, w, info, installed, toInstall);
    r := Planned(Plan(info, installed, toInstall, strict || untrusted));
  }

  // ---------- updating ----------

  datatype Update = Updates(path: seq<string>) | Downgrade | NoSuchVersion | NoPath | ScriptNotAllowed
      | MissingDependency | Failure

  /** A numeric version is lower than another numeric one. */
  ghost predicate Lowers(to: string, from: string) {
    Numeric(to).Some? && Numeric(from).Some? && Lower(Numeric(to).value, Numeric(from).value)
  }

  /** ALTER EXTENSION ... UPDATE runs the scripts of every step after the installed version. */
  ghost predicate MayRun(s: Server, policy: set<string>, name: string, path: seq<string>) {
    name in policy || forall i :: 1 <= i < |path| ==> Trusted(s, name, path[i])
  }

  method PlanUpdate(s: Server, sure: bool, policy: set<string>, name: string, from: string, to: string)
      returns (r: Update)
    requires Valid(s)
    // an update never lowers the installed version, and runs only scripts the policy allows
    ensures r.Updates? ==> !Lowers(to, from) && Version(s, name, to).Some? && Paths(s, name, from, to) != []
                           && r.path == Paths(s, name, from, to)[0] && |r.path| >= 2 && MayRun(s, policy, name, r.path)
                           && forall n :: Needs(s, Version(s, name, to).value, n) ==> n in s.installed
    ensures r.Downgrade? ==> Lowers(to, from)
    ensures r.NoSuchVersion? ==> Version(s, name, to).None?
    ensures r.ScriptNotAllowed? ==>
              Paths(s, name, from, to) != [] && !MayRun(s, policy, name, Paths(s, name, from, to)[0])
    ensures r.MissingDependency? ==>
              Version(s, name, to).Some? && exists n :: Needs(s, Version(s, name, to).value, n) && n !in s.installed
    ensures sure ==> !r.Failure?
    ensures r.NoPath? ==> Paths(s, name, from, to) == [] || |Paths(s, name, from, to)[0]| < 2
  {
    var cmp := CompareVersions(to, from);
    if cmp.Some? && cmp.value < 0 {
      return Downgrade;
    }
    var info, ok := FindVersion(s, sure, name, to);
    if !ok {
      return Failure;
    }
    if info.None? {
      return NoSuchVersion;
    }
    var paths;
    paths, ok := FindPaths(s, sure, name, from, to);
    if !ok {
      return Failure;
    }
    if paths == [] || |paths[0]| < 2 {
      return NoPath;
    }
    var problem, untrusted;
    problem, untrusted, ok := CheckVersions(s, sure, policy, name, set v <- paths[0][1..]);
    assert forall i :: 1 <= i < |paths[0]| ==> paths[0][i] == paths[0][1..][i - 1];
    if !ok {
      return Failure;
    }
    if problem {
      return ScriptNotAllowed;
    }
    var installed, toInstall, unavailable;
    installed, toInstall, unavailable, ok := Dependencies(s, sure, info.value);
    if !ok {
      return Failure;
    }
    if toInstall != [] || unavailable != [] {
      assert if toInstall != [] then toInstall[0] in toInstall else unavailable[0] in unavailable;
      return MissingDependency;
    }
    forall n | Needs(s, info.value, n) ensures n in s.installed {
      NeededIsPlanned(s, info.value, installed, toInstall, unavailable, n);
    }
    r := Updates(paths[0]);
  }
}
