/** Restarts of a primary that rejects the operator's password: bounded, ever further apart, and recorded
    in an annotation of the credentials Secret before each one. */
module PasswordSync {
  import opened Decimal
  import opened Text

  const MAX_ATTEMPTS := 5
  const FIRST_BACKOFF := 300
  const SECOND := 1_000_000_000

  /** The record; last is in seconds. */
  datatype Restart = Restart(fingerprint: string, attempts: int, last: int)

  const NO_RESTART := Restart("", 0, 0)

  // ---------- the record's text ----------

  function Parse(v: string): Restart {
    var parts := Split(v, '/');
    if |parts| != 3 then NO_RESTART
    else
      var attempts, last := ParseInt(parts[1]), ParseInt(parts[2]);
      if attempts.None? || last.None? then NO_RESTART
      else Restart(parts[0], attempts.value, last.value)
  }

  function Print(r: Restart): string {
    r.fingerprint + "/" + PrintInt(r.attempts) + "/" + PrintInt(r.last)
  }

  predicate Int64(n: int) {
    -INT64_LIMIT <= n < INT64_LIMIT
  }

  lemma SplitThree(a: string, b: string, c: string)
    requires '/' !in a && '/' !in b && '/' !in c
    ensures Split(a + "/" + b + "/" + c, '/') == [a, b, c]
  {
    assert a + "/" + b + "/" + c == a + "/" + (b + "/" + c);
    SplitFirst(a, b + "/" + c, '/');
    SplitFirst(b, c, '/');
    SplitOne(c, '/');
  }

  /** Parsing what was printed returns it. */
  lemma ParsePrinted(r: Restart)
    requires '/' !in r.fingerprint && Int64(r.attempts) && Int64(r.last)
    ensures Parse(Print(r)) == r
  {
    PrintIntChars(r.attempts);
    PrintIntChars(r.last);
    SplitThree(r.fingerprint, PrintInt(r.attempts), PrintInt(r.last));
    ParsePrintedInt(r.attempts);
    ParsePrintedInt(r.last);
  }

  // ---------- restarting ----------

  function Power2(n: nat): (p: nat)
    ensures p > 0
  {
    if n == 0 then 1 else 2 * Power2(n - 1)
  }

  /** The wait before restart attempts + 1, in seconds. */
  function Backoff(attempts: nat): nat
    requires attempts > 0
  {
    FIRST_BACKOFF * Power2(attempts - 1)
  }

  /** Seconds of a time in nanoseconds (time.Unix). */
  function Unix(now: int): int {
    now / SECOND
  }

  /** At least 5, 10, 20 and 40 minutes pass between one attempt and the next, in seconds. */
  ghost predicate Spaced(recorded: seq<int>) {
    && (|recorded| > 1 ==> recorded[1] - recorded[0] >= 300)
    && (|recorded| > 2 ==> recorded[2] - recorded[1] >= 600)
    && (|recorded| > 3 ==> recorded[3] - recorded[2] >= 1200)
    && (|recorded| > 4 ==> recorded[4] - recorded[3] >= 2400)
  }

  /** How long the attempt after this many has to wait, in minutes. */
  ghost function Minutes(attempts: nat): int {
    match attempts
    case 1 => 5
    case 2 => 10
    case 3 => 20
    case _ => 40
  }

  lemma BackoffMinutes(attempts: nat)
    requires 1 <= attempts <= 4
    ensures Backoff(attempts) == 60 * Minutes(attempts)
  {
    assert Power2(1) == 2 && Power2(2) == 4 && Power2(3) == 8;
  }

  datatype Outcome = Done | Conflict | Failed | Crashed

  /** The annotation in every version of the Secret (the last one is current), the restarts so far and,
      for the proof, when each attempt was recorded. */
  class World {
    const fingerprint: string
    /** Every call succeeds that can be carried out. */
    const reliable: bool
    var versions: seq<string>
    var deletions: nat
    ghost var recorded: seq<int>

    ghost predicate Inv()
      reads this
    {
      && '/' !in fingerprint && fingerprint != "" && versions != []
      && deletions <= |recorded| <= 5
      && (forall t <- recorded :: Int64(t))
      && Spaced(recorded)
      && (var current := versions[|versions| - 1];
          if recorded == [] then NotCounted(current)
          else current == Print(Restart(fingerprint, |recorded|, recorded[|recorded| - 1])))
    }

    /** The annotation records no attempt for this password. */
    predicate NotCounted(v: string)
    {
      Parse(v).fingerprint != fingerprint || Parse(v).attempts == 0
    }

    constructor (fp: string, annotation: string, calm: bool)
      requires '/' !in fp && fp != "" && (Parse(annotation).fingerprint != fp || Parse(annotation).attempts == 0)
      ensures Inv() && fingerprint == fp && reliable == calm && versions == [annotation] && deletions == 0
      ensures recorded == []
    {
      fingerprint, reliable, versions, deletions, recorded := fp, calm, [annotation], 0, [];
    }

    /** Someone changes something else in the Secret. */
    method Touch()
      requires Inv()
      modifies this`versions
      ensures Inv() && versions == old(versions) + [old(versions[|versions| - 1])]
    {
      versions := versions + [versions[|versions| - 1]];
    }

    /** The update of the Secret read at version base: refused unless that is current. */
    method Update(base: nat, s: Restart) returns (r: Outcome)
      requires Inv() && base < |versions| && Int64(s.last)
      requires base == |versions| - 1 ==> s.fingerprint == fingerprint && s.attempts == |recorded| + 1 <= 5
      requires base == |versions| - 1 && recorded != [] ==>
                 s.last - recorded[|recorded| - 1] >= 60 * Minutes(|recorded|)
      modifies this`versions, this`recorded
      ensures Inv() && (r.Done? ==> base == |old(versions)| - 1)
      ensures (versions == old(versions) && recorded == old(recorded))
              || (versions == old(versions) + [Print(s)] && recorded == old(recorded) + [s.last])
      ensures r.Done? ==> recorded == old(recorded) + [s.last]
      ensures reliable && base == |old(versions)| - 1 ==> r.Done?
    {
      r := *;
      if reliable {
        r := Done;
      }
      var applied: bool := *;
      if r.Done? && base != |versions| - 1 {
        r := Conflict;
      }
      if base == |versions| - 1 && !r.Conflict? && (applied || r.Done?) {
        versions := versions + [Print(s)];
        recorded := recorded + [s.last];
      }
    }

    /** Deletes the primary's pod. Counted even if the call fails. */
    method DeletePrimary() returns (r: Outcome)
      requires Inv() && deletions < |recorded|
      modifies this`deletions
      ensures Inv() && deletions == old(deletions) + 1 && (reliable ==> r.Done?)
    {
      r := *;
      if reliable {
        r := Done;
      }
      deletions := deletions + 1;
    }
  }

  /** The state of the restarts for this password. */
  function StateOf(fingerprint: string, v: string): (r: Restart)
    ensures r.fingerprint == fingerprint
  {
    var state := Parse(v);
    if state.fingerprint != fingerprint then Restart(fingerprint, 0, 0) else state
  }

  lemma CurrentState(w: World)
    requires w.Inv()
    ensures var state := StateOf(w.fingerprint, w.versions[|w.versions| - 1]);
            state.attempts == |w.recorded| && (w.recorded != [] ==> state.last == w.recorded[|w.recorded| - 1])
  {
    if w.recorded != [] {
      ParsePrinted(Restart(w.fingerprint, |w.recorded|, w.recorded[|w.recorded| - 1]));
    }
  }

  /** What a call comes to, with the time to the next attempt. */
  datatype Result = Restarted(next: int) | GivesUp | Waits(time: int) | NotRecorded | NotRestarted

  /** When the next attempt is allowed, in nanoseconds. */
  ghost function Allowed(recorded: seq<int>): int
    requires recorded != []
  {
    (recorded[|recorded| - 1] + 60 * Minutes(|recorded|)) * 1_000_000_000
  }

  /** One call, with the Secret as read at version base, at the time now (in nanoseconds). */
  method RestartPrimary(w: World, base: nat, now: int) returns (r: Result)
    requires w.Inv() && base < |w.versions| && Int64(now / 1_000_000_000)
    modifies w`versions, w`recorded, w`deletions
    ensures w.Inv() && w.deletions == old(w.deletions) + (if r.Restarted? || r.NotRestarted? then 1 else 0)
    // with the current Secret, it gives up, waits or restarts exactly as the record says
    ensures base == old(|w.versions|) - 1 ==> (r.GivesUp? <==> old(|w.recorded|) == 5)
    ensures base == old(|w.versions|) - 1 ==>
              (r.Waits? <==> 0 < old(|w.recorded|) < 5 && now < old(Allowed(w.recorded)))
    ensures base == old(|w.versions|) - 1 && r.Waits? ==> r.time == old(Allowed(w.recorded)) - now
    ensures r.Restarted? ==>
              && base == old(|w.versions|) - 1 && w.recorded == old(w.recorded) + [now / 1_000_000_000]
              && r.next == if |w.recorded| == 5 then 0 else 60 * Minutes(|w.recorded|) * 1_000_000_000
    ensures w.recorded == old(w.recorded) || w.recorded == old(w.recorded) + [now / 1_000_000_000]
    ensures w.recorded == old(w.recorded) ==> w.deletions == old(w.deletions)
    ensures base == old(|w.versions|) - 1 && w.reliable ==> !r.NotRecorded? && !r.NotRestarted?
  {
    var state := StateOf(w.fingerprint, w.versions[base]);
    if base == |w.versions| - 1 {
      CurrentState(w);
    }
    if state.attempts >= MAX_ATTEMPTS {
      return GivesUp;
    }
    if state.attempts > 0 {
      if base == |w.versions| - 1 {
        BackoffMinutes(state.attempts);
      }
      var allowed := (state.last + Backoff(state.attempts)) * SECOND;
      if now < allowed {
        return Waits(allowed - now);
      }
    }
    state := state.(attempts := state.attempts + 1, last := Unix(now));
    var u := w.Update(base, state);
    if !u.Done? {
      return NotRecorded;
    }
    u := w.DeletePrimary();
    if !u.Done? {
      return NotRestarted;
    }
    if state.attempts < MAX_ATTEMPTS {
      BackoffMinutes(state.attempts);
    }
    r := Restarted(if state.attempts >= MAX_ATTEMPTS then 0 else Backoff(state.attempts) * SECOND);
  }

  datatype Call = Call(base: nat, now: int) | OtherChange

  /** For one password and without a login that succeeds, whatever the calls, clocks, stale reads,
      conflicts, failures and crashes: at most five restarts, and between the records of one attempt and
      the next there are at least 5, 10, 20 and 40 minutes. */
  method Run(w: World, calls: seq<Call>)
    requires w.Inv() && forall c <- calls :: c.Call? ==> Int64(c.now / 1_000_000_000)
    modifies w`versions, w`recorded, w`deletions
    ensures w.Inv() && w.deletions <= |w.recorded| <= 5
    ensures Spaced(w.recorded)
  {
    for n := 0 to |calls|
      invariant w.Inv()
    {
      match calls[n]
      case Call(base, now) =>
        if base < |w.versions| {
          var r := RestartPrimary(w, base, now);
        }
      case OtherChange =>
        w.Touch();
    }
  }
}
