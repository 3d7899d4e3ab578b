/** The order of extension versions made of numbers separated by dots. */
module ExtensionVersions {
  import opened Option
  import opened Decimal
  import opened Text

  // ---------- what the order is ----------

  /** Number i of a version; missing ones are zero. */
  function Part(v: seq<nat>, i: nat): nat {
    if i < |v| then v[i] else 0
  }

  /** The first numbers that differ are lower. */
  ghost predicate Lower(a: seq<nat>, b: seq<nat>) {
    exists i: nat :: LowerAt(a, b, i)
  }

  ghost predicate LowerAt(a: seq<nat>, b: seq<nat>, i: nat) {
    Part(a, i) < Part(b, i) && forall j :: 0 <= j < i ==> Part(a, j) == Part(b, j)
  }

  ghost predicate Same(a: seq<nat>, b: seq<nat>) {
    forall i: nat :: Part(a, i) == Part(b, i)
  }

  /** A version without its trailing zeros. */
  function Trim(v: seq<nat>): seq<nat> {
    if v != [] && v[|v| - 1] == 0 then Trim(v[..|v| - 1]) else v
  }

  lemma {:induction false} TrimKeepsParts(v: seq<nat>)
    ensures Same(v, Trim(v)) && |Trim(v)| <= |v|
    ensures Trim(v) != [] ==> Trim(v)[|Trim(v)| - 1] != 0
  {
    if v != [] && v[|v| - 1] == 0 {
      TrimKeepsParts(v[..|v| - 1]);
      forall i: nat ensures Part(v, i) == Part(Trim(v), i) {
        assert Part(v[..|v| - 1], i) == Part(Trim(v[..|v| - 1]), i);
      }
    }
  }

  /** Two versions are the same exactly when they agree without their trailing zeros. */
  lemma SameWithoutZeros(a: seq<nat>, b: seq<nat>)
    ensures Same(a, b) <==> Trim(a) == Trim(b)
  {
    TrimKeepsParts(a);
    TrimKeepsParts(b);
    var s, t := Trim(a), Trim(b);
    if Same(a, b) {
      forall i: nat ensures Part(s, i) == Part(t, i) {
        assert Part(a, i) == Part(s, i) && Part(b, i) == Part(t, i) && Part(a, i) == Part(b, i);
      }
      assert s != [] ==> Part(t, |s| - 1) == Part(s, |s| - 1) != 0;
      assert t != [] ==> Part(s, |t| - 1) == Part(t, |t| - 1) != 0;
      forall i | 0 <= i < |s| ensures s[i] == t[i] {
        assert Part(s, i) == Part(t, i);
      }
    }
    if s == t {
      forall i: nat ensures Part(a, i) == Part(b, i) {
        assert Part(a, i) == Part(s, i) && Part(b, i) == Part(t, i);
      }
    }
  }

  lemma {:induction false} FirstDifference(a: seq<nat>, b: seq<nat>, i: nat)
    requires Part(a, i) != Part(b, i)
    ensures Lower(a, b) || Lower(b, a)
    decreases i
  {
    if j :| 0 <= j < i && Part(a, j) != Part(b, j) {
      FirstDifference(a, b, j);
    } else {
      assert LowerAt(a, b, i) || LowerAt(b, a, i);
    }
  }

  /** Exactly one of lower, same, higher holds. */
  lemma Trichotomy(a: seq<nat>, b: seq<nat>)
    ensures Lower(a, b) || Same(a, b) || Lower(b, a)
    ensures !(Lower(a, b) && Lower(b, a)) && !(Same(a, b) && (Lower(a, b) || Lower(b, a)))
  {
    if i: nat :| Part(a, i) != Part(b, i) {
      FirstDifference(a, b, i);
    }
    forall i: nat, j: nat | LowerAt(a, b, i) ensures !LowerAt(b, a, j) {
    }
  }

  /** Lower and same are transitive, also taken together. */
  lemma Transitive(a: seq<nat>, b: seq<nat>, c: seq<nat>)
    requires (Lower(a, b) || Same(a, b)) && (Lower(b, c) || Same(b, c))
    ensures Lower(a, c) || Same(a, c)
    ensures Lower(a, b) || Lower(b, c) ==> Lower(a, c)
  {
    if Lower(a, b) {
      var i: nat :| LowerAt(a, b, i);
      if Lower(b, c) {
        var j: nat :| LowerAt(b, c, j);
        assert LowerAt(a, c, if i < j then i else j);
      } else {
        assert Part(b, i) == Part(c, i);
        assert LowerAt(a, c, i);
      }
    } else if Lower(b, c) {
      var j: nat :| LowerAt(b, c, j);
      assert Part(a, j) == Part(b, j);
      assert LowerAt(a, c, j);
    }
  }

  // ---------- the comparison ----------

  /** The numbers of a version, or None when it has another form. */
  function Numbers(parts: seq<string>): (r: Option<seq<nat>>)
    ensures r.Some? ==> |r.value| == |parts|
  {
    if parts == [] then Some([])
    else
      var rest, n := Numbers(parts[..|parts| - 1]), ParseUint(parts[|parts| - 1]);
      if rest.None? || n.None? then None else Some(rest.value + [n.value])
  }

  function Numeric(v: string): Option<seq<nat>> {
    if v == "" then None else Numbers(Split(v, '.'))
  }

  /** parts are digits and nothing else, each a number of 64 bits; ns are their values. */
  ghost predicate AreNumbers(parts: seq<string>, ns: seq<nat>) {
    |parts| == |ns| && forall i :: 0 <= i < |parts| ==>
      parts[i] != "" && AllDigits(parts[i]) && Value(parts[i]) == ns[i] < UINT64_LIMIT
  }

  lemma {:induction false} NumbersAre(parts: seq<string>, ns: seq<nat>)
    ensures Numbers(parts) == Some(ns) <==> AreNumbers(parts, ns)
  {
    if parts != [] && ns != [] {
      var n := |parts| - 1;
      var last := ns[..|ns| - 1];
      NumbersAre(parts[..n], last);
      assert ns == last + [ns[|ns| - 1]];
      if AreNumbers(parts, ns) {
        assert AreNumbers(parts[..n], last);
      }
      if Numbers(parts) == Some(ns) {
        var rest := Numbers(parts[..n]).value;
        assert rest + [ParseUint(parts[n]).value] == ns;
        assert rest == last;
      }
    } else if parts != [] {
      assert Numbers(parts).Some? ==> |Numbers(parts).value| == |parts|;
    }
  }

  /** A version is numeric, with these numbers, exactly if it is their decimal forms (leading zeros
      allowed) joined with dots. */
  lemma NumericMeans(v: string, ns: seq<nat>)
    ensures Numeric(v) == Some(ns) <==> exists parts :: parts != [] && Join(parts, '.') == v && AreNumbers(parts, ns)
  {
    if Numeric(v) == Some(ns) {
      JoinSplit(v, '.');
      NumbersAre(Split(v, '.'), ns);
    }
    if parts :| parts != [] && Join(parts, '.') == v && AreNumbers(parts, ns) {
      assert forall p <- parts :: '.' !in p;
      SplitJoin(parts, '.');
      NumbersAre(parts, ns);
    }
  }

  lemma {:induction false} NumbersPrefix(parts: seq<string>, n: nat)
    requires n <= |parts| && Numbers(parts).Some?
    ensures Numbers(parts[..n]).Some?
  {
    if n < |parts| {
      assert parts[..n] == parts[..|parts| - 1][..n];
      NumbersPrefix(parts[..|parts| - 1], n);
    } else {
      assert parts[..n] == parts;
    }
  }

  method NumericVersion(v: string) returns (r: Option<seq<nat>>)
    ensures r == Numeric(v)
  {
    if v == "" {
      return None;
    }
    var parts := Split(v, '.');
    var numbers: seq<nat> := [];
    for i := 0 to |parts|
      invariant Numbers(parts[..i]) == Some(numbers)
    {
      var n := ParseUint(parts[i]);
      assert parts[..i + 1][..i] == parts[..i];
      if n.None? {
        if Numbers(parts).Some? {
          NumbersPrefix(parts, i + 1);
        }
        return None;
      }
      numbers := numbers + [n.value];
    }
    assert parts[..|parts|] == parts;
    r := Some(numbers);
  }

  lemma LowerDecides(x: seq<nat>, y: seq<nat>, i: nat)
    requires LowerAt(x, y, i)
    ensures Lower(x, y) && !Lower(y, x) && Trim(x) != Trim(y)
  {
    Trichotomy(x, y);
    SameWithoutZeros(x, y);
  }

  lemma SameDecides(x: seq<nat>, y: seq<nat>)
    requires Same(x, y)
    ensures !Lower(x, y) && !Lower(y, x) && Trim(x) == Trim(y)
  {
    Trichotomy(x, y);
    SameWithoutZeros(x, y);
  }

  /** -1, 0 or 1 for two numeric versions, None when one is not numeric. */
  method CompareVersions(a: string, b: string) returns (r: Option<int>)
    ensures r.Some? <==> Numeric(a).Some? && Numeric(b).Some?
    ensures r.Some? ==> (r.value < 0 <==> Lower(Numeric(a).value, Numeric(b).value))
    ensures r.Some? ==> (r.value > 0 <==> Lower(Numeric(b).value, Numeric(a).value))
    ensures r.Some? ==> (r.value == 0 <==> Trim(Numeric(a).value) == Trim(Numeric(b).value))
  {
    var pa := NumericVersion(a);
    var pb := NumericVersion(b);
    if pa.None? || pb.None? {
      return None;
    }
    var x, y := pa.value, pb.value;
    for i := 0 to if |x| > |y| then |x| else |y|
      invariant forall j :: 0 <= j < i ==> Part(x, j) == Part(y, j)
    {
      if Part(x, i) < Part(y, i) {
        LowerDecides(x, y, i);
        return Some(-1);
      } else if Part(x, i) > Part(y, i) {
        LowerDecides(y, x, i);
        return Some(1);
      }
    }
    SameDecides(x, y);
    r := Some(0);
  }
}
