/** spec.publicPrivileges: pgop takes default privileges away from PUBLIC, after recording that it does,
    and gives back exactly what the record lists. */
module PublicPrivileges {
  import opened Option

  datatype Kind = Database | Schema

  datatype Item = Connect | Temporary | PublicSchemaUsage | PublicSchemaCreate {
    function Kind(): Kind {
      if Connect? || Temporary? then Database else Schema
    }
  }

  const ITEMS := [Connect, Temporary, PublicSchemaUsage, PublicSchemaCreate]

  datatype Outcome = Done | Failed | Crashed

  /** spec.publicPrivileges: the items to revoke, and those of them that the spec also grants to PUBLIC. */
  datatype Spec = Spec(revoke: set<Item>, conflicts: set<Item>)

  /** Of what is still there, PUBLIC holds it or the record lists it, if and only if PUBLIC held it at the
      start; what is gone it does not hold. */
  ghost predicate Accounts(initial: set<Item>, found: set<Kind>, holds: set<Item>, record: set<Item>) {
    && record <= initial
    && forall i: Item ::
         if i.Kind() in found then i in holds || i in record <==> i in initial else i !in holds
  }

  /** What PUBLIC holds from the owners, and status.revokedPublicPrivileges. Statements and writes may
      fail, applied or not, and the operator may crash at any of them. */
  class World {
    var holds: set<Item>
    var record: set<Item>
    /** The objects that exist: the schema public may be dropped. */
    var found: set<Kind>
    const initial: set<Item>
    /** Every call succeeds. */
    const reliable: bool

    ghost predicate Inv()
      reads this
    {
      Accounts(initial, found, holds, record)
    }

    constructor (start: set<Item>, exist: set<Kind>, calm: bool)
      requires forall i <- start :: i.Kind() in exist
      ensures Inv() && holds == initial == start && record == {} && found == exist && reliable == calm
    {
      holds, record, initial, found, reliable := start, {}, start, exist, calm;
    }

    /** Someone drops the schema public. */
    method DropSchema()
      requires Inv()
      modifies this`holds, this`found
      ensures Inv() && found == old(found) - {Schema} && holds == old(holds) - {PublicSchemaUsage, PublicSchemaCreate}
    {
      found, holds := found - {Schema}, holds - {PublicSchemaUsage, PublicSchemaCreate};
    }

    method Revoke(i: Item) returns (r: Outcome)
      requires Inv() && i in record
      modifies this`holds
      ensures Inv() && (holds == old(holds) || holds == old(holds) - {i}) && (r.Done? ==> i !in holds)
      ensures reliable ==> r.Done?
    {
      r := *;
      if reliable {
        r := Done;
      }
      var applied: bool := *;
      if applied || r.Done? {
        holds := holds - {i};
      }
    }

    method Grant(i: Item) returns (r: Outcome)
      requires Inv() && i in record && i.Kind() in found
      modifies this`holds
      ensures Inv() && (holds == old(holds) || holds == old(holds) + {i}) && (r.Done? ==> i in holds)
      ensures reliable ==> r.Done?
    {
      r := *;
      if reliable {
        r := Done;
      }
      var applied: bool := *;
      if applied || r.Done? {
        holds := holds + {i};
      }
    }

    method Save(m: set<Item>) returns (r: Outcome)
      requires Inv() && Accounts(initial, found, holds, m)
      modifies this`record
      ensures Inv() && (record == old(record) || record == m) && (r.Done? ==> record == m) && (reliable ==> r.Done?)
    {
      r := *;
      if reliable {
        r := Done;
      }
      var applied: bool := *;
      if applied || r.Done? {
        record := m;
      }
    }

    method Read(k: Kind) returns (held: set<Item>, exists_: bool, r: Outcome)
      ensures r.Done? ==> exists_ == (k in found) && held == holds
      ensures reliable ==> r.Done?
    {
      held, exists_, r := {}, false, *;
      if reliable {
        r := Done;
      }
      if r.Done? {
        held, exists_ := holds, k in found;
      }
    }
  }

  /** What a pass without errors leaves of item i: taken away when asked to, given back when not; of what is
      gone nothing is held, and what is not asked for is off the record. */
  ghost predicate Settled(i: Item, spec: Spec, initial: set<Item>, found: set<Kind>, holds: set<Item>,
                          recorded: set<Item>) {
    if i.Kind() !in found then i !in holds && (i !in spec.revoke ==> i !in recorded)
    else if i in spec.revoke then i !in holds && (i in recorded <==> i in initial)
    else i !in recorded && (i in holds <==> i in initial)
  }

  /** Nothing has changed but what concerns item i. */
  ghost predicate Only(i: Item, before: set<Item>, after: set<Item>) {
    forall j: Item :: j != i ==> (j in after <==> j in before)
  }

  ghost predicate Recorded(w: World, recorded: set<Item>)
    reads w
  {
    w.Inv() && Accounts(w.initial, w.found, w.holds, recorded) && recorded <= w.record
  }

  /** Revokes item i after recording it, or gives it back and strikes it off the record; held is whether
      PUBLIC holds it. */
  method ReconcileItem(w: World, i: Item, revoke: bool, before: set<Item>, held: bool)
      returns (recorded: set<Item>, r: Outcome)
    requires Recorded(w, before) && (held <==> i in w.holds) && (revoke || i in before) && i.Kind() in w.found
    modifies w`holds, w`record
    ensures Recorded(w, recorded) && Only(i, before, recorded) && Only(i, old(w.holds), w.holds)
    ensures r.Done? ==> if revoke then i !in w.holds else i in w.holds && i !in recorded
    ensures w.reliable ==> r.Done?
  {
    recorded, r := before, Done;
    if revoke && held {
      if i !in recorded {
        r := w.Save(recorded + {i});
        if !r.Done? {
          return;
        }
        recorded := recorded + {i};
      }
      r := w.Revoke(i);
    } else if !revoke {
      if !held {
        r := w.Grant(i);
      }
      if r.Done? {
        recorded := recorded - {i};
      }
    }
  }

  /** Item i needs no work: it is another connection's, the spec contradicts itself, or it is neither
      asked for nor recorded. */
  predicate Skip(i: Item, k: Kind, spec: Spec, recorded: set<Item>) {
    i.Kind() != k || i in spec.revoke * spec.conflicts || (i !in spec.revoke && i !in recorded)
  }

  /** Item i is neither of this kind nor free of contradictions: it stays as it is. */
  ghost predicate LeftAlone(i: Item, k: Kind, spec: Spec) {
    i.Kind() != k || i in spec.revoke * spec.conflicts
  }

  /** The first n items are dealt with, the others untouched. */
  ghost predicate Progress(n: int, k: Kind, spec: Spec, initial: set<Item>, found: set<Kind>, holds: set<Item>,
                           holds': set<Item>,
                           recorded: set<Item>, recorded': set<Item>, clean: bool) {
    && (forall j: Item :: LeftAlone(j, k, spec) || Index(j) >= n ==>
          (j in holds' <==> j in holds) && (j in recorded' <==> j in recorded))
    // what is asked for and gone stays on the record if it is there
    && (forall j: Item :: j.Kind() !in found && j in spec.revoke ==> (j in recorded' <==> j in recorded))
    && (clean ==> forall j: Item :: !LeftAlone(j, k, spec) && Index(j) < n ==>
        Settled(j, spec, initial, found, holds', recorded'))
  }

  function Index(i: Item): (n: nat)
    ensures n < |ITEMS| && ITEMS[n] == i
  {
    match i
    case Connect => 0
    case Temporary => 1
    case PublicSchemaUsage => 2
    case PublicSchemaCreate => 3
  }

  lemma NextItem(n: nat, i: Item, k: Kind, spec: Spec, initial: set<Item>, found: set<Kind>, holds: set<Item>,
                 holds1: set<Item>, holds2: set<Item>,
                 recorded: set<Item>, recorded1: set<Item>, recorded2: set<Item>, clean: bool, done: bool)
    requires n == Index(i) && Progress(n, k, spec, initial, found, holds, holds1, recorded, recorded1, clean)
    requires Only(i, holds1, holds2) && Only(i, recorded1, recorded2)
    requires LeftAlone(i, k, spec) ==> (i in holds2 <==> i in holds) && (i in recorded2 <==> i in recorded)
    requires i.Kind() !in found && i in spec.revoke ==> (i in recorded2 <==> i in recorded)
    requires !LeftAlone(i, k, spec) && done ==> Settled(i, spec, initial, found, holds2, recorded2)
    ensures Progress(n + 1, k, spec, initial, found, holds, holds2, recorded, recorded2, clean && done)
  {
  }

  /** The pass for the items of one kind. recorded is the record in the working copy of the status. */
  method ReconcileKind(w: World, k: Kind, spec: Spec, before: set<Item>)
      returns (recorded: set<Item>, clean: bool, r: Outcome)
    requires Recorded(w, before)
    modifies w`holds, w`record
    ensures Recorded(w, recorded)
    ensures r.Done? ==> Progress(|ITEMS|, k, spec, w.initial, w.found, old(w.holds), w.holds, before, recorded, clean)
    // nothing of the other kind is touched
    ensures r.Done? ==>
              forall i <- if k.Database? then {PublicSchemaUsage, PublicSchemaCreate} else {Connect, Temporary} ::
                (i in w.holds <==> i in old(w.holds)) && (i in recorded <==> i in before)
    ensures w.reliable ==> r.Done? && clean
  {
    recorded, clean, r := before, true, Done;
    var cache: Option<set<Item>> := None;
    for n := 0 to |ITEMS|
      invariant Recorded(w, recorded) && (w.reliable ==> clean)
      invariant Progress(n, k, spec, w.initial, w.found, old(w.holds), w.holds, before, recorded, clean)
      invariant cache.Some? ==> k in w.found && forall j: Item :: Index(j) >= n ==> (j in cache.value <==> j in w.holds)
    {
      var i := ITEMS[n];
      assert n == Index(i);
      ghost var holds1, recorded1 := w.holds, recorded;
      if Skip(i, k, spec, recorded) {
        NextItem(n, i, k, spec, w.initial, w.found, old(w.holds), w.holds, w.holds, before, recorded,
                 recorded, clean, true);
        continue;
      }
      if cache.None? {
        var held, found;
        held, found, r := w.Read(k);
        if !r.Done? {
          return recorded, false, r;
        }
        if !found {
          if i !in spec.revoke {
            recorded := recorded - {i};
          }
          NextItem(n, i, k, spec, w.initial, w.found, old(w.holds), w.holds, w.holds, before, recorded1,
                   recorded, clean, true);
          continue;
        }
        cache := Some(held);
      }
      var s;
      recorded, s := ReconcileItem(w, i, i in spec.revoke, recorded, i in cache.value);
      if s.Crashed? {
        return recorded, false, s;
      }
      NextItem(n, i, k, spec, w.initial, w.found, old(w.holds), holds1, w.holds, before, recorded1, recorded,
               clean, s.Done?);
      clean := clean && s.Done?;
    }
    r := Done;
  }

  ghost predicate AllSettled(spec: Spec, initial: set<Item>, found: set<Kind>, holds: set<Item>, record: set<Item>) {
    forall i: Item :: i !in spec.revoke * spec.conflicts ==> Settled(i, spec, initial, found, holds, record)
  }

  /** One pass: the items of the database, those of the schema public, and the status write. */
  method Pass(w: World, spec: Spec) returns (clean: bool)
    requires w.Inv()
    modifies w`holds, w`record
    ensures w.Inv()
    ensures clean ==> AllSettled(spec, w.initial, w.found, w.holds, w.record)
    ensures clean ==> forall i: Item :: i in spec.revoke * spec.conflicts ==> (i in w.holds <==> i in old(w.holds))
    ensures clean ==> forall i: Item :: i in spec.revoke && i.Kind() !in w.found ==>
                  (i in w.record <==> i in old(w.record))
    ensures w.reliable ==> clean
  {
    var recorded, r, c;
    recorded, clean, r := ReconcileKind(w, Database, spec, w.record);
    if r.Crashed? {
      return false;
    }
    clean := clean && r.Done?;
    recorded, c, r := ReconcileKind(w, Schema, spec, recorded);
    if r.Crashed? {
      return false;
    }
    clean := clean && c && r.Done?;
    r := w.Save(recorded);
    clean := clean && r.Done?;
  }

  datatype Step = Passes(spec: Spec) | SchemaDropped

  /** In every durable state of every run, whatever the specs, failures and crashes, PUBLIC never holds
      what it did not hold at the start, and what it lost of what is still there is on record. Asked for
      nothing, a pass without errors restores exactly the privileges of the start. */
  method Run(w: World, steps: seq<Step>, last: Spec) returns (clean: bool)
    requires w.Inv()
    modifies w`holds, w`record, w`found
    ensures w.Inv()
    ensures w.holds <= w.initial
    ensures forall i <- w.initial :: i !in w.holds && i.Kind() in w.found ==> i in w.record
    ensures clean && last.revoke == {} ==> w.record == {} && w.holds == set i <- w.initial | i.Kind() in w.found
    ensures w.reliable ==> clean
  {
    for n := 0 to |steps|
      invariant w.Inv()
    {
      match steps[n]
      case Passes(spec) =>
        var passed := Pass(w, spec);
      case SchemaDropped =>
        w.DropSchema();
    }
    clean := Pass(w, last);
    if clean && last.revoke == {} {
      forall i: Item ensures i !in w.record && (i in w.holds <==> i in w.initial && i.Kind() in w.found) {
        assert Settled(i, last, w.initial, w.found, w.holds, w.record);
      }
    }
  }
}
