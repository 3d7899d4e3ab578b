/** Runs of passes of the grant engine over one ledger, as the controllers make them. */
module GrantPasses {
  import opened GrantWorld
  import opened GrantEngine

  /** How many entries the engine may track when kept ones take up part of a ledger of this size. */
  function Room(size: int, kept: nat): (limit: int)
    ensures limit > 0
    ensures size > 0 ==> (kept + limit <= size <==> kept < size)
  {
    if size - kept > 1 then size - kept else 1
  }

  /** Of a ledger entry and a grantee without failures: what is declared is held, what was recorded and
      is no longer declared is not, and the entry lists exactly what pgop has added. */
  ghost predicate Reconciled(before: Acl, after: Acl, l: Grant, l': Grant, d: Grant) {
    && after.held == before.held + d.privileges - (l.privileges - d.privileges)
    && after.options == before.options + d.options - (l.options - d.options) - (l.privileges - d.privileges)
    && l'.privileges == l.privileges * d.privileges + (d.privileges - before.held)
    && l'.options == l.options * d.options + (d.options - before.options)
  }

  lemma DidReconcile(before: Acl, after: Acl, l: Grant, l': Grant, d: Grant)
    requires Declarable(d) && DidAt(before, after, l, l', d, false, {})
    ensures Reconciled(before, after, l, l', d)
  {
  }

  /** A reconciled key stays as it is when it is reconciled again: nothing is missing and nothing is
      recorded in vain. */
  lemma ReconciledIsAtRest(before: Acl, after: Acl, l: Grant, l': Grant, d: Grant)
    requires Declarable(d) && Reconciled(before, after, l, l', d)
    ensures AtRest(after, l', d)
  {
    assert d.options <= d.privileges;
  }

  ghost predicate AllAtRest(acls: Acls, ledger: Ledger, desired: seq<Desired>, kept: set<string>) {
    forall k :: k !in kept ==> AtRest(AclAt(acls, k), GrantAt(ledger, k), WantAt(desired, k))
  }

  /** Everything ever recorded, or tried to be, has at most size entries. */
  ghost predicate Bounded(history: seq<Ledger>, size: nat) {
    forall m <- history :: |m| <= size
  }

  datatype Input = Input(desired: seq<Desired>, kept: set<string>)

  ghost predicate Valid(i: Input) {
    Declared(i.desired) && Keys(i.desired) !! i.kept
  }

  function Part(m: Ledger, keys: set<string>): Ledger {
    map k | k in m && k in keys :: m[k]
  }

  lemma Parts(m: Ledger, kept: set<string>)
    ensures Consists(m, m - kept, Part(m, kept))
    ensures (m - kept).Keys + Part(m, kept).Keys == m.Keys
  {
  }

  lemma SameLedger(a: Ledger, b: Ledger)
    requires Tidy(a) && Tidy(b) && forall k :: GrantAt(a, k) == GrantAt(b, k)
    ensures a == b
  {
    forall k ensures k in a <==> k in b {
      assert GrantAt(a, k) == GrantAt(b, k);
    }
    forall k <- a ensures a[k] == b[k] {
      assert GrantAt(a, k) == GrantAt(b, k);
    }
  }

  lemma RestMeansNothingToDo(acls: Acls, ledger: Ledger, desired: seq<Desired>, kept: set<string>)
    requires Distinct(desired) && Keys(desired) !! kept && AllAtRest(acls, ledger, desired, kept)
    ensures NothingMissing(desired, acls) && NothingToRevoke(ledger - kept, desired)
  {
    forall d <- desired ensures Empty(New(AclAt(acls, d.key), d.grant)) {
      assert d.key !in kept;
      WantedIs(desired, d);
      assert AtRest(AclAt(acls, d.key), GrantAt(ledger, d.key), WantAt(desired, d.key));
    }
    forall k <- ledger - kept ensures Within((ledger - kept)[k], WantAt(desired, k)) {
      assert AtRest(AclAt(acls, k), GrantAt(ledger, k), WantAt(desired, k));
    }
  }

  lemma {:induction false} WantedIs(desired: seq<Desired>, d: Desired)
    requires Distinct(desired) && d in desired
    ensures WantAt(desired, d.key) == d.grant
  {
    var last := |desired| - 1;
    if d != desired[last] {
      assert d in desired[..last];
      WantedIs(desired[..last], d);
    }
  }

  /** Every target is reconciled, and the kept entries are as they were. */
  ghost predicate AllReconciled(before: Acls, after: Acls, l: Ledger, l': Ledger, i: Input) {
    && (forall k :: k !in i.kept ==>
          Reconciled(AclAt(before, k), AclAt(after, k), GrantAt(l, k), GrantAt(l', k), WantAt(i.desired, k)))
    && (forall k <- i.kept :: GrantAt(l', k) == GrantAt(l, k))
  }

  /** After a clean pass a second one finds nothing to do. */
  lemma CleanPassRests(before: Acls, after: Acls, l: Ledger, l': Ledger, i: Input)
    requires Valid(i) && AllReconciled(before, after, l, l', i)
    ensures AllAtRest(after, l', i.desired, i.kept)
  {
    forall k | k !in i.kept ensures AtRest(AclAt(after, k), GrantAt(l', k), WantAt(i.desired, k)) {
      ReconciledIsAtRest(AclAt(before, k), AclAt(after, k), GrantAt(l, k), GrantAt(l', k), WantAt(i.desired, k));
    }
  }

  lemma CleanPass(before: Acls, after: Acls, l: Ledger, tracked: Ledger, i: Input, over: bool,
                  skipped: map<string, set<string>>, failed: set<string>)
    requires Valid(i) && Did(before, after, l - i.kept, tracked, i.desired, over, skipped, failed)
    requires !over && (forall k <- skipped :: skipped[k] == {}) && failed == {}
    ensures AllReconciled(before, after, l, Record(tracked, Part(l, i.kept)), i)
  {
    var l' := Record(tracked, Part(l, i.kept));
    forall k | k !in i.kept
      ensures Reconciled(AclAt(before, k), AclAt(after, k), GrantAt(l, k), GrantAt(l', k), WantAt(i.desired, k)) {
      assert GrantAt(l', k) == GrantAt(tracked, k) && GrantAt(l - i.kept, k) == GrantAt(l, k);
      DidReconcile(AclAt(before, k), AclAt(after, k), GrantAt(l, k), GrantAt(l', k), WantAt(i.desired, k));
    }
    forall k <- i.kept ensures GrantAt(l', k) == GrantAt(l, k) {
      assert k !in l ==> GrantAt(tracked, k) == NO_GRANT by {
        KeptIsUntracked(before, after, l, tracked, i, over, skipped, failed, k);
      }
    }
  }

  /** The engine tracks nothing at a kept key. */
  lemma KeptIsUntracked(before: Acls, after: Acls, l: Ledger, tracked: Ledger, i: Input, over: bool,
                        skipped: map<string, set<string>>, failed: set<string>, k: string)
    requires Valid(i) && Did(before, after, l - i.kept, tracked, i.desired, over, skipped, failed) && !over
    requires k in i.kept && k !in failed
    ensures GrantAt(tracked, k) == NO_GRANT
  {
    assert forall d <- i.desired :: d.key != k;
    assert WantAt(i.desired, k) == NO_GRANT && GrantAt(l - i.kept, k) == NO_GRANT;
  }

  lemma UntouchedLedger(l: Ledger, tracked: Ledger, kept: set<string>)
    requires Tidy(l) && tracked.Keys <= (l - kept).Keys + tracked.Keys
    requires forall k :: GrantAt(tracked, k) == GrantAt(l - kept, k)
    ensures Record(tracked, Part(l, kept)) == l
  {
    SameLedger(Record(tracked, Part(l, kept)), l);
  }

  // ---------- the size of the ledger ----------

  lemma {:induction false} Smaller(a: set<string>, b: set<string>)
    requires a <= b
    ensures |a| <= |b|
  {
    if a != {} {
      var x :| x in a;
      Smaller(a - {x}, b - {x});
    }
  }

  /** Within the limit, what is recorded together with the kept entries has at most size entries; over
      it, no more than before. */
  lemma RecordFits(l: Ledger, kept: set<string>, desired: set<string>, m: Ledger, size: nat)
    requires |Part(l, kept)| < size && |l| <= size
    requires m.Keys <= l.Keys
                       + if TooMany(Room(size, |Part(l, kept)|), (l - kept).Keys + desired) then {} else desired
    ensures |m| <= size
  {
    var managed := (l - kept).Keys;
    var k := Part(l, kept).Keys;
    assert l.Keys == managed + k;
    if TooMany(Room(size, |Part(l, kept)|), managed + desired) {
      Smaller(m.Keys, l.Keys);
    } else {
      Smaller(m.Keys, managed + desired + k);
      assert |managed + desired + k| <= |managed + desired| + |k|;
    }
    assert |m| == |m.Keys| && |l| == |l.Keys| && |k| == |Part(l, kept)|;
  }

  ghost predicate Restful(w: World, i: Input)
    reads w`acls, w`ledger
  {
    Distinct(i.desired) && AllAtRest(w.acls, w.ledger, i.desired, i.kept)
  }

  /** The declared targets exist, each once, and nobody passed a privilege on. */
  ghost predicate Smooth(acls: Acls, desired: seq<Desired>) {
    Distinct(desired) && (forall k :: AclAt(acls, k).passedOn == {})
        && (forall d <- desired :: AclAt(acls, d.key).present)
  }

  lemma SmoothIsClean(before: Acls, after: Acls, l: Ledger, l': Ledger, desired: seq<Desired>, over: bool,
                      skipped: map<string, set<string>>, failed: set<string>)
    requires Smooth(before, desired) && Absent(before, failed, Keys(desired))
    requires Did(before, after, l, l', desired, over, skipped, failed)
    ensures failed == {} && forall k <- skipped :: skipped[k] == {}
  {
    forall k <- skipped ensures skipped[k] == {} {
      assert Skipped(skipped, k) <= AclAt(before, k).passedOn;
    }
  }

  /** No statement was issued, and only the same ledger was written again. */
  twostate predicate Idle(w: World)
    reads w
  {
    && w.statements == old(w.statements) && w.acls == old(w.acls) && w.ledger == old(w.ledger)
    && (w.history == old(w.history) || w.history == old(w.history) + [old(w.ledger)])
    && (w.reliable ==> w.history != old(w.history))
  }

  /** The API takes a ledger with fewer entries than one it takes. */
  ghost predicate Monotone(accepts: Ledger -> bool) {
    forall a: Ledger, b: Ledger :: a.Keys <= b.Keys && accepts(b) ==> accepts(a)
  }

  /** What a pass in which nobody else acts has done. Without errors every target is reconciled. When calls
      succeed, the targets exist and nothing is passed on, there are errors only over the limit or when the
      API refuses the ledger to be recorded; in the latter case nothing has changed. */
  ghost predicate Outcomes(reliable: bool, accepts: Ledger -> bool, before: Acls, after: Acls, l: Ledger, l': Ledger,
                           i: Input, over: bool, clean: bool) {
    && (clean && Distinct(i.desired) ==> AllReconciled(before, after, l, l', i))
    && (reliable && Smooth(before, i.desired) && !over ==>
          && (AcceptsAll(accepts, Recorded(l, i, over)) ==> clean)
          && (Monotone(accepts) && !clean ==> after == before && l' == l))
  }

  /** The engine's part of a pass, up to the status write of m. */
  method Engine(w: World, i: Input, limit: int) returns (m: Ledger, clean: bool, over: bool, r: Outcome)
    requires w.Inv() && Valid(i)
    modifies w`acls, w`ours, w`taken, w`refused, w`missed, w`statements, w`ledger, w`history
    ensures w.Inv() && !r.Dependents? && (!r.Crashed? ==> w.MayRecord(m)) && (clean ==> r.Done?)
    ensures over == TooMany(limit, (old(w.ledger) - i.kept).Keys + Keys(i.desired))
    ensures RecordedOnly(old(w.history), w.history, Recorded(old(w.ledger), i, over))
    ensures !r.Crashed? ==> m.Keys <= Recorded(old(w.ledger), i, over)
    ensures r.Done? ==> Fewer(w.ledger, m)
    ensures w.reliable ==> (r.Done? || r.Failed?)
                           && (AcceptsAll(w.accepts, Recorded(old(w.ledger), i, over)) ==> r.Done?)
    ensures r.Failed? ==> m == old(w.ledger)
    ensures w.reliable && r.Failed? ==> w.ledger == old(w.ledger)
    ensures w.quiet ==> NoMoreMissed(old(w.missed), w.missed)
    ensures w.quiet && r.Failed? ==> w.acls == old(w.acls)
    ensures w.quiet && clean && Distinct(i.desired) ==> AllReconciled(old(w.acls), w.acls, old(w.ledger), m, i)
    ensures w.quiet && w.reliable && r.Done? && Smooth(old(w.acls), i.desired) && !over ==> clean
    ensures w.quiet && old(Restful(w, i)) ==>
              w.statements == old(w.statements) && w.acls == old(w.acls) && w.ledger == old(w.ledger)
                                   && w.history == old(w.history) && m == w.ledger
  {
    ghost var l := w.ledger;
    var managed, kept := w.ledger - i.kept, Part(w.ledger, i.kept);
    Parts(l, i.kept);
    ghost var rest := Restful(w, i);
    if rest {
      RestMeansNothingToDo(w.acls, l, i.desired, i.kept);
    }
    UntouchedLedger(l, managed, i.kept);
    var after, skipped, failed;
    after, skipped, failed, over, r := Apply(w, i.desired, managed, kept, limit);
    clean := r.Done? && failed == {} && (forall k <- skipped :: skipped[k] == {}) && !over;
    if w.quiet && r.Done? && Distinct(i.desired) {
      CleanOrNot(w.reliable, old(w.acls), w.acls, l, after, i, over, skipped, failed, clean);
    }
    if w.quiet && rest {
      UntouchedLedger(l, after, i.kept);
    }
    m := Record(after, kept);
  }

  lemma CleanOrNot(reliable: bool, before: Acls, after: Acls, l: Ledger, tracked: Ledger, i: Input, over: bool,
                   skipped: map<string, set<string>>, failed: set<string>, clean: bool)
    requires Valid(i) && clean == (failed == {} && (forall k <- skipped :: skipped[k] == {}) && !over)
    requires Did(before, after, l - i.kept, tracked, i.desired, over, skipped, failed)
    requires reliable ==> Absent(before, failed, Keys(i.desired))
    ensures clean ==> AllReconciled(before, after, l, Record(tracked, Part(l, i.kept)), i)
    ensures reliable && Smooth(before, i.desired) && !over ==> clean
  {
    if clean {
      CleanPass(before, after, l, tracked, i, over, skipped, failed);
    }
    if reliable && Smooth(before, i.desired) {
      SmoothIsClean(before, after, l - i.kept, tracked, i.desired, over, skipped, failed);
    }
  }

  lemma FewerKeys(l: Ledger, m: Ledger)
    requires Fewer(l, m) && Tidy(m)
    ensures m.Keys <= l.Keys
  {
    forall k <- m ensures k in l {
      assert Within(GrantAt(m, k), GrantAt(l, k));
    }
  }

  function Recorded(l: Ledger, i: Input, over: bool): set<string> {
    Recordable(l - i.kept, Part(l, i.kept), i.desired, over)
  }

  /** One pass over the ledger: the engine's, and then the status write. clean means that it reported
      no error. */
  method PassWithin(w: World, i: Input, limit: int) returns (clean: bool, over: bool)
    requires w.Inv() && Valid(i)
    modifies w`acls, w`ours, w`taken, w`refused, w`missed, w`statements, w`ledger, w`history
    ensures w.Inv()
    ensures over == TooMany(limit, (old(w.ledger) - i.kept).Keys + Keys(i.desired))
    ensures RecordedOnly(old(w.history), w.history, Recorded(old(w.ledger), i, over))
    ensures w.quiet ==>
              Outcomes(w.reliable, w.accepts, old(w.acls), w.acls, old(w.ledger), w.ledger, i, over, clean)
    ensures w.quiet ==> NoMoreMissed(old(w.missed), w.missed)
    ensures w.quiet && old(Restful(w, i)) ==> Idle(w)
  {
    var m, r;
    m, clean, over, r := Engine(w, i, limit);
    ghost var l, h := w.ledger, w.history;
    if !r.Crashed? {
      RecordedBoth(old(w.history), h, m, Recorded(old(w.ledger), i, over));
      ghost var done, mid := r.Done?, w.acls;
      if r.Done? {
        FewerKeys(l, m);
      }
      r := w.Save(m);
      assert w.history == h + [m];
      if w.quiet {
        PassMeans(w.reliable, w.accepts, old(w.acls), mid, old(w.ledger), l, m, w.ledger, i, over, clean, done,
                  r.Done?);
      }
    }
    clean := clean && r.Done?;
  }

  lemma PassMeans(reliable: bool, accepts: Ledger -> bool, before: Acls, after: Acls, l: Ledger, l1: Ledger, m: Ledger,
                  l2: Ledger, i: Input, over: bool, clean: bool, done: bool, saved: bool)
    // what the engine has done
    requires clean && Distinct(i.desired) ==> AllReconciled(before, after, l, m, i)
    requires reliable && done && Smooth(before, i.desired) && !over ==> clean
    requires !done ==> after == before && m == l && (reliable ==> l1 == l)
    requires reliable && AcceptsAll(accepts, Recorded(l, i, over)) ==> done
    // and the status write
    requires m.Keys <= Recorded(l, i, over) && accepts(l1) && (done ==> m.Keys <= l1.Keys)
    requires (saved ==> l2 == m) && (reliable ==> (saved <==> accepts(m))) && (l2 == m || l2 == l1)
    requires clean ==> done
    ensures Outcomes(reliable, accepts, before, after, l, l2, i, over, clean && saved)
  {
  }

  /** Together with the kept entries, the engine's stay within size while there is room for one. */
  lemma StaysBounded(before: seq<Ledger>, after: seq<Ledger>, l: Ledger, i: Input, size: nat, over: bool)
    requires Bounded(before, size) && |l| <= size && |Part(l, i.kept)| < size
    requires over == TooMany(Room(size, |Part(l, i.kept)|), (l - i.kept).Keys + Keys(i.desired))
    requires RecordedOnly(before, after, Recorded(l, i, over))
    ensures Bounded(after, size)
  {
    Parts(l, i.kept);
    forall m <- after ensures |m| <= size {
      var n :| 0 <= n < |after| && after[n] == m;
      if n < |before| {
        assert after[..|before|][n] == m;
      } else {
        RecordFits(l, i.kept, Keys(i.desired), m, size);
      }
    }
  }

  /** What a pass may record at most. */
  function Recordings(l: Ledger, i: Input, size: nat): set<string> {
    Recorded(l, i, TooMany(Room(size, |Part(l, i.kept)|), (l - i.kept).Keys + Keys(i.desired)))
  }

  lemma RoomSuffices(l: Ledger, i: Input, size: nat)
    requires |Part(l, i.kept)| < size && |l| <= size
    ensures |Recordings(l, i, size)| <= size
  {
    Parts(l, i.kept);
    var keys := Recordings(l, i, size);
    var m := map k | k in keys :: NO_GRANT;
    assert m.Keys == keys;
    RecordFits(l, i.kept, Keys(i.desired), m, size);
    assert |m| == |m.Keys|;
  }

  lemma AllKept(l: Ledger, kept: set<string>, size: nat)
    requires |Part(l, kept)| >= size && |l| <= size
    ensures (l - kept).Keys == {} && |Part(l, kept)| == |l.Keys| == size
  {
    assert |l.Keys| == |l| && |Part(l, kept).Keys| == |Part(l, kept)|;
    Smaller(Part(l, kept).Keys, l.Keys);
    SameSize(Part(l, kept).Keys, l.Keys);
  }

  lemma NoRoomOverflows(l: Ledger, kept: set<string>, size: nat) returns (desired: seq<Desired>)
    requires size > 0 && |Part(l, kept)| >= size && |l| <= size
    ensures Valid(Input(desired, kept)) && |Recordings(l, Input(desired, kept), size)| == size + 1
  {
    AllKept(l, kept, size);
    var key := NewKey(l.Keys + kept);
    desired := [Desired(key, NO_GRANT)];
    KeysOfOne(desired[0]);
    NotOver(size, key, l, Input(desired, kept), false);
    RecordsOneMore(l, Input(desired, kept), key);
  }

  lemma KeysOfOne(d: Desired)
    ensures Keys([d]) == {d.key}
  {
    assert d in [d];
  }

  lemma RecordsOneMore(l: Ledger, i: Input, key: string)
    requires (l - i.kept).Keys == {} && Keys(i.desired) == {key} && key !in l
    ensures |Recorded(l, i, false)| == |l.Keys| + 1
  {
    Parts(l, i.kept);
    assert Recorded(l, i, false) == l.Keys + {key};
  }

  /** Whatever is declared, what a pass may record fits the size of the ledger, if and only if the kept
      entries leave room for one. */
  lemma RoomForOneDecides(l: Ledger, kept: set<string>, size: nat)
    requires size > 0 && |l| <= size
    ensures (forall desired: seq<Desired> ::
               Valid(Input(desired, kept)) ==> |Recordings(l, Input(desired, kept), size)| <= size)
            <==> |Part(l, kept)| < size
  {
    if |Part(l, kept)| < size {
      forall desired: seq<Desired> ensures |Recordings(l, Input(desired, kept), size)| <= size {
        RoomSuffices(l, Input(desired, kept), size);
      }
    } else {
      var desired := NoRoomOverflows(l, kept, size);
    }
  }

  lemma SameSize(a: set<string>, b: set<string>)
    requires a <= b && |a| == |b|
    ensures a == b
  {
    assert b == a + (b - a);
    assert |b| == |a| + |b - a|;
  }

  lemma NewKey(keys: set<string>) returns (key: string)
    ensures key !in keys
  {
    key := LongKey(keys);
  }

  lemma {:induction false} LongKey(keys: set<string>) returns (key: string)
    ensures forall k <- keys :: |k| < |key|
  {
    if keys == {} {
      key := "";
    } else {
      var k :| k in keys;
      key := LongKey(keys - {k});
      key := key + k + "0";
    }
  }

  /** One grant more, and all entries kept. */
  function OneGrant(l: Ledger, key: string, g: Grant): (i: Input)
    ensures Keys(i.desired) == {key} && i.kept == l.Keys && WantAt(i.desired, key) == g && Distinct(i.desired)
    ensures forall k :: k != key ==> WantAt(i.desired, k) == NO_GRANT
    ensures (l - i.kept).Keys == {} && Part(l, i.kept) == l
  {
    Input([Desired(key, g)], l.Keys)
  }

  /** The API takes the ledgers of up to size entries. */
  ghost predicate TakesUpTo(accepts: Ledger -> bool, size: nat) {
    forall m: Ledger :: accepts(m) <==> |m| <= size
  }

  lemma TakesFewer(accepts: Ledger -> bool, size: nat)
    requires TakesUpTo(accepts, size)
    ensures Monotone(accepts)
  {
    forall a: Ledger, b: Ledger | a.Keys <= b.Keys && accepts(b) ensures accepts(a) {
      Smaller(a.Keys, b.Keys);
      assert |a| == |a.Keys| && |b| == |b.Keys|;
    }
  }

  lemma TakesRecordings(accepts: Ledger -> bool, l: Ledger, i: Input, size: nat)
    requires TakesUpTo(accepts, size) && |l| <= size && |Part(l, i.kept)| < size
    ensures AcceptsAll(accepts, Recordings(l, i, size))
  {
    RoomSuffices(l, i, size);
    forall m: Ledger | m.Keys <= Recordings(l, i, size) ensures accepts(m) {
      Smaller(m.Keys, Recordings(l, i, size));
      assert |m| == |m.Keys|;
    }
  }

  /** A pass as the controller makes it. With room for one more entry beside the kept ones, whatever it tries
      to record fits, and it is clean unless something is in the way; without, it is clean or it changes
      nothing. */
  method Pass(w: World, i: Input, size: nat) returns (clean: bool, over: bool)
    requires w.Inv() && Valid(i) && TakesUpTo(w.accepts, size)
    modifies w`acls, w`ours, w`taken, w`refused, w`missed, w`statements, w`ledger, w`history
    ensures w.Inv() && RecordedOnly(old(w.history), w.history, Recordings(old(w.ledger), i, size))
    ensures |Part(old(w.ledger), i.kept)| < size && Bounded(old(w.history), size) ==> Bounded(w.history, size)
    ensures size > 0 && Bounded(old(w.history), size + 1) ==> Bounded(w.history, size + 1)
    ensures w.quiet ==> NoMoreMissed(old(w.missed), w.missed)
    // over: the tracked and the declared keys are more than what the kept entries leave, and more than one
    ensures over <==> |(old(w.ledger) - i.kept).Keys + Keys(i.desired)| > size - |Part(old(w.ledger), i.kept)|
                      && |(old(w.ledger) - i.kept).Keys + Keys(i.desired)| > 1
    // with room for all of them beside the kept ones, there are no errors unless something is in the way
    ensures w.quiet && w.reliable && Smooth(old(w.acls), i.desired)
            && |Part(old(w.ledger), i.kept)| < size
            && |Part(old(w.ledger), i.kept)| + |(old(w.ledger) - i.kept).Keys + Keys(i.desired)| <= size
            ==> clean
    ensures w.quiet && clean && Distinct(i.desired) ==>
              AllReconciled(old(w.acls), w.acls, old(w.ledger), w.ledger, i)
    ensures w.quiet && w.reliable && Smooth(old(w.acls), i.desired) && !over ==>
              clean || (|Part(old(w.ledger), i.kept)| >= size && w.acls == old(w.acls) && w.ledger == old(w.ledger))
  {
    ghost var l, history := w.ledger, w.history;
    clean, over := PassWithin(w, i, Room(size, |Part(w.ledger, i.kept)|));
    TakesFewer(w.accepts, size);
    if |Part(l, i.kept)| < size {
      TakesRecordings(w.accepts, l, i, size);
      if Bounded(history, size) {
        StaysBounded(history, w.history, l, i, size, over);
      }
    }
    if size > 0 && Bounded(history, size + 1) {
      OneTooManyAtMost(history, w.history, l, i, size);
    }
  }

  lemma OneTooManyAtMost(before: seq<Ledger>, after: seq<Ledger>, l: Ledger, i: Input, size: nat)
    requires size > 0 && Bounded(before, size + 1) && |l| <= size
    requires RecordedOnly(before, after, Recordings(l, i, size))
    ensures Bounded(after, size + 1)
  {
    RecordingsFit(l, i, size);
    forall m <- after ensures |m| <= size + 1 {
      var n :| 0 <= n < |after| && after[n] == m;
      if n < |before| {
        assert after[..|before|][n] == m;
      } else {
        Smaller(m.Keys, Recordings(l, i, size));
        assert |m| == |m.Keys|;
      }
    }
  }

  lemma RecordingsFit(l: Ledger, i: Input, size: nat)
    requires size > 0 && |l| <= size
    ensures |Recordings(l, i, size)| <= size + 1
  {
    Parts(l, i.kept);
    if |Part(l, i.kept)| < size {
      RoomSuffices(l, i, size);
    } else {
      AllKept(l, i.kept, size);
      assert Recordings(l, i, size) == l.Keys + if |Keys(i.desired)| > 1 then {} else Keys(i.desired) by {
        assert {} + Keys(i.desired) == Keys(i.desired);
      }
      assert |l.Keys + Keys(i.desired)| <= |l.Keys| + |Keys(i.desired)|;
    }
  }

  /** With all the room taken by kept entries, the API refuses what a pass tries to record. */
  method PassOverFullLedger(w: World, key: string, g: Grant, size: nat) returns (clean: bool)
    requires w.Inv() && w.quiet && w.reliable && TakesUpTo(w.accepts, size)
    requires size > 0 && |w.ledger| == size && key !in w.ledger && Declarable(g)
    requires AclAt(w.acls, key).present && !(g.privileges <= AclAt(w.acls, key).held)
    requires forall k :: AclAt(w.acls, k).passedOn == {}
    modifies w`acls, w`ours, w`taken, w`refused, w`missed, w`statements, w`ledger, w`history
    ensures w.Inv() && !clean && w.acls == old(w.acls) && w.ledger == old(w.ledger)
  {
    ghost var l, acls := w.ledger, w.acls;
    var i := OneGrant(w.ledger, key, g);
    OneIsSmooth(acls, i);
    var over;
    clean, over := Pass(w, i, size);
    NotOver(size, key, l, i, over);
    if clean {
      OneMore(acls, w.acls, l, w.ledger, i, key);
      OneLarger(l, w.ledger, key);
    }
  }

  lemma OneIsSmooth(acls: Acls, i: Input)
    requires Distinct(i.desired) && forall k :: AclAt(acls, k).passedOn == {}
    requires forall k <- Keys(i.desired) :: AclAt(acls, k).present
    ensures Smooth(acls, i.desired)
  {
    assert forall d <- i.desired :: d.key in Keys(i.desired);
  }

  lemma NotOver(size: nat, key: string, l: Ledger, i: Input, over: bool)
    requires size > 0 && over == TooMany(Room(size, |Part(l, i.kept)|), (l - i.kept).Keys + Keys(i.desired))
    requires (l - i.kept).Keys == {} && Keys(i.desired) == {key}
    ensures !over
  {
    assert {} + {key} == {key};
  }

  lemma OneMore(before: Acls, after: Acls, l: Ledger, l': Ledger, i: Input, key: string)
    requires AllReconciled(before, after, l, l', i) && i.kept == l.Keys && key !in l && Tidy(l) && Tidy(l')
    requires forall k :: k != key ==> WantAt(i.desired, k) == NO_GRANT
    requires !(WantAt(i.desired, key).privileges <= AclAt(before, key).held)
    ensures l'.Keys == l.Keys + {key}
  {
    forall k ensures k in l' <==> k in l.Keys + {key} {
      OneMoreAt(before, after, l, l', i, key, k);
    }
  }

  lemma OneLarger(l: Ledger, l': Ledger, key: string)
    requires key !in l && l'.Keys == l.Keys + {key}
    ensures |l'| == |l| + 1
  {
    assert |l'| == |l'.Keys| && |l| == |l.Keys|;
  }

  lemma OneMoreAt(before: Acls, after: Acls, l: Ledger, l': Ledger, i: Input, key: string, k: string)
    requires AllReconciled(before, after, l, l', i) && i.kept == l.Keys && key !in l && Tidy(l) && Tidy(l')
    requires k != key ==> WantAt(i.desired, k) == NO_GRANT
    requires !(WantAt(i.desired, key).privileges <= AclAt(before, key).held)
    ensures k in l' <==> k in l.Keys + {key}
  {
    if k in i.kept {
      assert GrantAt(l', k) == GrantAt(l, k);
    } else {
      assert Reconciled(AclAt(before, k), AclAt(after, k), GrantAt(l, k), GrantAt(l', k), WantAt(i.desired, k));
      if k == key {
        var p :| p in WantAt(i.desired, k).privileges && p !in AclAt(before, k).held;
        assert p in GrantAt(l', k).privileges;
      } else {
        assert GrantAt(l', k) == NO_GRANT;
      }
    }
  }

  /** A clean pass and another one: the second issues no statement and leaves everything as the first
      did. */
  method PassTwice(w: World, i: Input, limit: int)
      returns (clean: bool, ghost acls: Acls, ghost ledger: Ledger, ghost statements: nat,
               ghost history: seq<Ledger>)
    requires w.Inv() && Valid(i) && Distinct(i.desired)
    modifies w`acls, w`ours, w`taken, w`refused, w`missed, w`statements, w`ledger, w`history
    ensures w.Inv()
    ensures w.quiet && clean ==> AllReconciled(old(w.acls), acls, old(w.ledger), ledger, i)
    ensures w.quiet && clean ==> w.acls == acls && w.ledger == ledger && w.statements == statements
    // the second one did take place
    ensures w.quiet && w.reliable && clean ==> w.history == history + [ledger]
  {
    var over;
    clean, over := PassWithin(w, i, limit);
    acls, ledger, statements, history := w.acls, w.ledger, w.statements, w.history;
    if w.quiet && clean {
      CleanPassRests(old(w.acls), acls, old(w.ledger), ledger, i);
    }
    var again, overAgain := PassWithin(w, i, limit);
  }

  datatype Step = Reconcile(input: Input) | Others(key: string, acl: Acl)

  /** What a pass and what others may do to a grantee. */
  predicate Allowed(w: World, key: string, a: Acl)
    reads w`acls
  {
    WellFormed(a) && (w.alone ==> a.(passedOn := {}) == AclAt(w.acls, key).(passedOn := {}))
  }

  /** What pgop granted and is still held is in the ledger, was reported as refused, or missed the ledger
      because others had taken it away between plan and statement. When nobody else changes privileges, nothing
      misses it, what was held at the start still is, and the ledger does not list it. */
  ghost predicate Promise(w: World, k: string)
    reads w
  {
    && Covered(GrantAt(w.ours, k), w.RefusedAt(k) + w.MissedAt(k), GrantAt(w.ledger, k))
    && StillHeld(GrantAt(w.ours, k), AclAt(w.acls, k)) && w.MissedAt(k) <= w.TakenAt(k)
    && (w.alone ==> w.MissedAt(k) == {})
    && (w.alone ==> Kept(AclAt(w.initial, k), AclAt(w.acls, k)) && Unlisted(AclAt(w.initial, k), GrantAt(w.ledger, k)))
  }

  /** Any run: passes with whatever declarations, failing and crashing anywhere, and what others do between
      them and during them. */
  method Run(w: World, steps: seq<Step>, size: nat)
    requires w.Inv() && TakesUpTo(w.accepts, size) && (forall s <- steps :: s.Reconcile? ==> Valid(s.input))
    requires size > 0 && Bounded(w.history, size)
    modifies w`acls, w`ours, w`taken, w`refused, w`missed, w`statements, w`ledger, w`history
    ensures w.Inv() && |w.ledger| <= size
    // what a pass tries to record is at most one entry too many, and none where fewer than size are kept
    ensures Bounded(w.history, size + 1)
    ensures (forall s <- steps :: s.Reconcile? ==> |s.input.kept| < size) ==> Bounded(w.history, size)
    ensures w.quiet ==> NoMoreMissed(old(w.missed), w.missed)
    ensures forall k :: Promise(w, k)
  {
    for n := 0 to |steps|
      invariant w.Inv() && Bounded(w.history, size + 1)
      invariant (forall s <- steps[..n] :: s.Reconcile? ==> |s.input.kept| < size) ==> Bounded(w.history, size)
      invariant w.quiet ==> NoMoreMissed(old(w.missed), w.missed)
    {
      assert forall s <- steps[..n + 1] :: s in steps[..n] || s == steps[n];
      assert steps[n] in steps[..n + 1] && forall s <- steps[..n] :: s in steps[..n + 1];
      match steps[n]
      case Reconcile(i) =>
        PartOfKept(w.ledger, i.kept);
        var clean, over := Pass(w, i, size);
      case Others(k, a) =>
        if Allowed(w, k, a) {
          w.Outside(k, a);
        }
    }
    assert steps[..|steps|] == steps;
    forall k ensures Promise(w, k) {
      assert w.KeyOk(k);
    }
  }

  lemma PartOfKept(l: Ledger, kept: set<string>)
    ensures |Part(l, kept)| <= |kept|
  {
    Smaller(Part(l, kept).Keys, kept);
    assert |Part(l, kept)| == |Part(l, kept).Keys|;
  }

  // ---------- the moment at which others make an addition miss the ledger ----------

  lemma TakesOne(accepts: Ledger -> bool, size: nat, k: string)
    requires TakesUpTo(accepts, size) && size > 0
    ensures AcceptsAll(accepts, {k})
  {
    forall m: Ledger | m.Keys <= {k} ensures accepts(m) {
      Smaller(m.Keys, {k});
      assert |m| == |m.Keys|;
    }
  }

  /** The grant option of a privilege that is held is planned and recorded. */
  method PlanOption(w: World, k: string, p: string, size: nat) returns (plan: Planned)
    requires w.Inv() && w.quiet && w.reliable && TakesUpTo(w.accepts, size) && size > 0 && w.ledger == map[]
    requires p in AclAt(w.acls, k).held && p !in AclAt(w.acls, k).options
    modifies w`acls, w`ours, w`taken, w`ledger, w`history
    ensures w.Inv() && ReadyOne(plan, {k}, w.acls, w.taken, w.initial, w.alone) && w.acls == old(w.acls)
    ensures plan.held == AclAt(w.acls, k).held && plan.added == Grant({}, {p})
    ensures w.ledger.Keys <= {k} && GrantAt(w.ledger, k) == plan.added
  {
    plan := ReadOption(w, k, p);
    TakesOne(w.accepts, size, k);
    OneReady(plan, {k}, w.acls, w.taken, w.initial, w.alone);
    var tracked, r;
    tracked, r := RecordIntended(w, map[], map[], [plan], {k});
    OneReady(plan, {k}, w.acls, w.taken, w.initial, w.alone);
    IntendedOne(w.ledger, tracked, plan);
  }

  method ReadOption(w: World, k: string, p: string) returns (plan: Planned)
    requires w.Inv() && w.quiet && w.reliable && p in AclAt(w.acls, k).held && p !in AclAt(w.acls, k).options
    modifies w`acls, w`ours, w`taken
    ensures w.Inv() && ReadyOne(plan, {k}, w.acls, w.taken, w.initial, w.alone) && w.acls == old(w.acls)
    ensures plan.key == k && plan.held == AclAt(w.acls, k).held && plan.added == Grant({}, {p})
  {
    var r;
    plan, r := PlanMissing(w, Desired(k, Grant({p}, {p})));
  }

  lemma OneReady(p: Planned, keys: set<string>, acls: Acls, taken: Sets, initial: Acls, alone: bool)
    ensures ReadyOne(p, keys, acls, taken, initial, alone) <==> Ready([p], keys, acls, taken, initial, alone)
  {
    assert p in [p];
  }

  method TakeAway(w: World, plan: Planned, k: string, p: string)
    requires w.Inv() && !w.alone && ReadyOne(plan, {k}, w.acls, w.taken, w.initial, w.alone)
    requires p !in AclAt(w.acls, k).options
    modifies w`acls, w`ours, w`taken
    ensures w.Inv() && ReadyOne(plan, {k}, w.acls, w.taken, w.initial, w.alone)
    ensures w.acls == old(w.acls)[k := Without(old(AclAt(w.acls, k)), p)]
  {
    assert w.KeyOk(k);
    ghost var acls, taken := w.acls, w.taken;
    TakenAway(acls, k, Without(AclAt(w.acls, k), p), taken);
    w.Outside(k, Without(AclAt(w.acls, k), p));
    assert plan in [plan];
    StillReady([plan], {k}, acls, w.acls, taken, w.taken, w.initial, w.alone);
  }

  function Without(a: Acl, p: string): Acl {
    a.(held := a.held - {p})
  }

  /** It is planned and recorded, and someone takes the privilege away before the option is granted. */
  method LateOption(w: World, k: string, p: string, size: nat) returns (ghost late: set<string>)
    requires w.Inv() && w.quiet && w.reliable && !w.alone && TakesUpTo(w.accepts, size) && size > 0
    requires w.ledger == map[] && AclAt(w.acls, k).present
    requires p in AclAt(w.acls, k).held && p !in AclAt(w.acls, k).options && AclAt(w.acls, k).passedOn == {}
    modifies w`acls, w`ours, w`taken, w`refused, w`missed, w`statements, w`ledger, w`history
    ensures w.Inv() && late == {p} && p in AclAt(w.acls, k).held
    ensures w.ledger.Keys <= {k} && GrantAt(w.ledger, k) == Grant({}, {p})
    ensures NobodyElse(old(w.acls), w.acls, k)
  {
    var plan := PlanOption(w, k, p, size);
    ghost var a, acls := AclAt(w.acls, k), w.acls;
    TakeAway(w, plan, k, p);
    LateIsOption(plan, a, p);
    ghost var at, mid := Without(a, p), w.acls;
    var r;
    r, at, late := GrantOne(w, plan, {k});
    LateHeld(acls, mid, w.acls, plan, k, p);
  }

  lemma LateIsOption(plan: Planned, a: Acl, p: string)
    requires p in a.held && plan.held == a.held && plan.options == {p}
    ensures LateOf(plan, Without(a, p), Grant({}, {p})) == {p}
  {
  }

  lemma LateHeld(acls: Acls, mid: Acls, after: Acls, plan: Planned, k: string, p: string)
    requires plan.key == k && plan.options == {p} && AclAt(acls, k).passedOn == {}
    requires mid == acls[k := Without(AclAt(acls, k), p)] && GrantedAt(mid, after, plan, true)
    ensures p in AclAt(after, k).held && NobodyElse(acls, after, k)
  {
    assert p in plan.options + plan.plain;
  }

  /** Nobody has passed anything on, and the others hold what they held. */
  ghost predicate NobodyElse(before: Acls, after: Acls, k: string) {
    AclAt(after, k).passedOn == {} && forall j :: j != k ==> AclAt(after, j) == AclAt(before, j)
  }

  lemma IntendedOne(ledger: Ledger, tracked: Ledger, plan: Planned)
    requires Consists(ledger, tracked, map[]) && Intends(map[], [plan], tracked) && Tidy(ledger)
    ensures GrantAt(ledger, plan.key) == plan.added && ledger.Keys <= {plan.key}
  {
    forall j ensures GrantAt(ledger, j) == if j == plan.key then plan.added else NO_GRANT {
      assert [plan][..0] == [] && Added([], j) == NO_GRANT;
      assert GrantAt(ledger, j) == GrantAt(Record(tracked, map[]), j) == GrantAt(tracked, j);
      assert GrantAt(tracked, j) == Merge(GrantAt(map[], j), Added([plan], j));
    }
    forall j <- ledger ensures j == plan.key {
      assert GrantAt(ledger, j) != NO_GRANT;
    }
  }

  /** Then the grant is taken back from the spec: a pass without errors leaves the privilege in place,
      tracked no longer. */
  method OptionAfterRevoke(w: World, k: string, p: string, size: nat)
      returns (ghost late: set<string>, clean: bool)
    requires w.Inv() && w.quiet && w.reliable && !w.alone && TakesUpTo(w.accepts, size) && size > 0
    requires w.ledger == map[] && AclAt(w.acls, k).present
    requires p in AclAt(w.acls, k).held && p !in AclAt(w.acls, k).options
    requires forall j :: AclAt(w.acls, j).passedOn == {}
    modifies w`acls, w`ours, w`taken, w`refused, w`missed, w`statements, w`ledger, w`history
    ensures w.Inv() && clean && late == {p}
    ensures p in AclAt(w.acls, k).held && GrantAt(w.ledger, k) == NO_GRANT
  {
    late := LateOption(w, k, p, size);
    clean := PassOverNothing(w, k, size);
  }

  /** A pass without declared grants, over a ledger that lists grant options at k and nothing else. */
  method PassOverNothing(w: World, k: string, size: nat) returns (clean: bool)
    requires w.Inv() && w.quiet && w.reliable && TakesUpTo(w.accepts, size) && size > 0
    requires w.ledger.Keys <= {k} && GrantAt(w.ledger, k).privileges == {}
    requires forall j :: AclAt(w.acls, j).passedOn == {}
    modifies w`acls, w`ours, w`taken, w`refused, w`missed, w`statements, w`ledger, w`history
    ensures w.Inv() && clean
    ensures AclAt(w.acls, k).held == old(AclAt(w.acls, k)).held && GrantAt(w.ledger, k) == NO_GRANT
  {
    ghost var l, acls := w.ledger, w.acls;
    var i := Input([], {});
    NothingOver(l, i, k, size);
    var over;
    clean, over := Pass(w, i, size);
    Reconciles(acls, w.acls, l, w.ledger, i, k);
  }

  lemma Reconciles(before: Acls, after: Acls, l: Ledger, l': Ledger, i: Input, k: string)
    requires i == Input([], {}) && AllReconciled(before, after, l, l', i) && GrantAt(l, k).privileges == {}
    ensures AclAt(after, k).held == AclAt(before, k).held && GrantAt(l', k) == NO_GRANT
  {
    assert WantAt(i.desired, k) == NO_GRANT;
    assert Reconciled(AclAt(before, k), AclAt(after, k), GrantAt(l, k), GrantAt(l', k), NO_GRANT);
  }

  lemma NothingOver(l: Ledger, i: Input, k: string, size: nat)
    requires i == Input([], {}) && l.Keys <= {k} && size > 0
    ensures |Part(l, i.kept)| < size
    ensures !TooMany(Room(size, |Part(l, i.kept)|), (l - i.kept).Keys + Keys(i.desired))
  {
    assert Part(l, {}) == map[];
    assert (l - {}).Keys + {} <= {k};
    Smaller((l - i.kept).Keys + Keys(i.desired), {k});
  }
}
