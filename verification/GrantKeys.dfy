/** The ledger key of a grant target: unambiguous whatever its names contain. */
module GrantKeys {
  import opened Decimal

  /** A tracked grant. Schema is data and not part of the key. */
  datatype GrantTarget = GrantTarget(kind: string, name: string, grantee: string, schema: string, forRole: string,
                                     oid: int)

  // ---------- strconv.Quote ----------

  function HexDigit(d: nat): (c: char)
    requires d < 16
  {
    "0123456789abcdef"[d]
  }

  /** n in hexadecimal, in exactly width digits. */
  function Hex(n: nat, width: nat): (s: string)
    ensures |s| == width
  {
    if width == 0 then "" else Hex(n / 16, width - 1) + [HexDigit(n % 16)]
  }

  function Power16(width: nat): (p: nat)
    ensures p > 0
  {
    if width == 0 then 1 else 16 * Power16(width - 1)
  }

  lemma {:induction false} HexInjective(a: nat, b: nat, width: nat)
    requires a < Power16(width) && b < Power16(width) && Hex(a, width) == Hex(b, width)
    ensures a == b
  {
    if width > 0 {
      var s, t := Hex(a, width), Hex(b, width);
      assert s[..width - 1] == Hex(a / 16, width - 1) && t[..width - 1] == Hex(b / 16, width - 1);
      assert s[width - 1] == HexDigit(a % 16) && t[width - 1] == HexDigit(b % 16);
      HexInjective(a / 16, b / 16, width - 1);
    }
  }

  /** What Quote writes for one character. printable is unicode.IsPrint beyond the control
      characters, which are escaped whatever it says. */
  function Escape(c: char, printable: char -> bool): (s: string)
    ensures s != ""
  {
    if c == '"' || c == '\\' then ['\\', c]
    else if ' ' <= c && c as int != 0x7f && printable(c) then [c]
    else if c as int == 7 then "\\a"
    else if c as int == 8 then "\\b"
    else if c as int == 12 then "\\f"
    else if c == '\n' then "\\n"
    else if c == '\r' then "\\r"
    else if c == '\t' then "\\t"
    else if c as int == 11 then "\\v"
    else if c < ' ' || c as int == 0x7f then "\\x" + Hex(c as int, 2)
    else if c as int < 0x10000 then "\\u" + Hex(c as int, 4)
    else "\\U" + Hex(c as int, 8)
  }

  function EscapeAll(s: string, printable: char -> bool): string {
    if s == "" then "" else Escape(s[0], printable) + EscapeAll(s[1..], printable)
  }

  function Quote(s: string, printable: char -> bool): string {
    "\"" + EscapeAll(s, printable) + "\""
  }

  /** How long an escape is, from its second character. */
  function EscapeLength(second: char): nat {
    if second == 'x' then 4 else if second == 'u' then 6 else if second == 'U' then 10 else 2
  }

  /** An escape starts with a backslash and is as long as its second character says; anything else
      stands for itself and is neither a quote nor a backslash. */
  lemma EscapeShape(c: char, printable: char -> bool)
    ensures var s := Escape(c, printable);
            if s[0] == '\\' then |s| >= 2 && |s| == EscapeLength(s[1]) else s == [c] && c != '"'
  {
  }

  lemma EscapeInjective(c: char, d: char, printable: char -> bool)
    requires Escape(c, printable) == Escape(d, printable)
    ensures c == d
  {
    var s := Escape(c, printable);
    EscapeShape(c, printable);
    EscapeShape(d, printable);
    if s[0] == '\\' && |s| > 2 {
      var w := |s| - 2;
      assert s[2..] == Hex(c as int, w) && s[2..] == Hex(d as int, w);
      assert Power16(2) == 256 && Power16(4) == 65536;
      assert Power16(8) == 0x1_0000_0000 by {
        assert Power16(6) == 0x100_0000;
      }
      HexInjective(c as int, d as int, w);
    }
  }

  /** Escapes are prefix free: the first one of a text is determined by the text. */
  lemma EscapePrefix(c: char, x: string, d: char, y: string, printable: char -> bool)
    requires Escape(c, printable) + x == Escape(d, printable) + y
    ensures c == d && x == y
  {
    var s, t := Escape(c, printable), Escape(d, printable);
    EscapeShape(c, printable);
    EscapeShape(d, printable);
    assert (s + x)[0] == s[0] && (t + y)[0] == t[0];
    if s[0] == '\\' {
      assert (s + x)[1] == s[1] && (t + y)[1] == t[1];
    }
    assert |s| == |t|;
    assert s == (s + x)[..|s|] && t == (t + y)[..|t|];
    assert x == (s + x)[|s|..] && y == (t + y)[|t|..];
    EscapeInjective(c, d, printable);
  }

  lemma EscapeAllStep(s: string, rest: string, printable: char -> bool)
    ensures if s == "" then EscapeAll(s, printable) + rest == rest
            else EscapeAll(s, printable) + rest == Escape(s[0], printable) + (EscapeAll(s[1..], printable) + rest)
  {
  }

  /** A quoted string can be read back from the front of any text. */
  lemma {:induction false} QuotedPrefix(a: string, x: string, b: string, y: string, printable: char -> bool)
    requires x != "" && y != "" && x[0] == '"' && y[0] == '"'
    requires EscapeAll(a, printable) + x == EscapeAll(b, printable) + y
    ensures a == b && x == y
    decreases |a|
  {
    EscapeAllStep(a, x, printable);
    EscapeAllStep(b, y, printable);
    if a != "" {
      EscapeShape(a[0], printable);
      assert (EscapeAll(a, printable) + x)[0] == Escape(a[0], printable)[0] != '"';
    }
    if b != "" {
      EscapeShape(b[0], printable);
      assert (EscapeAll(b, printable) + y)[0] == Escape(b[0], printable)[0] != '"';
    }
    if a != "" && b != "" {
      EscapePrefix(a[0], EscapeAll(a[1..], printable) + x, b[0], EscapeAll(b[1..], printable) + y, printable);
      QuotedPrefix(a[1..], x, b[1..], y, printable);
    }
  }

  lemma OpenText(body: string, rest: string)
    ensures ("\"" + body + "\"" + rest)[1..] == body + ("\"" + rest)
  {
  }

  lemma QuotePrefix(a: string, x: string, b: string, y: string, printable: char -> bool)
    requires Quote(a, printable) + x == Quote(b, printable) + y
    ensures a == b && x == y
  {
    OpenText(EscapeAll(a, printable), x);
    OpenText(EscapeAll(b, printable), y);
    QuotedPrefix(a, "\"" + x, b, "\"" + y, printable);
    assert ("\"" + x)[1..] == x && ("\"" + y)[1..] == y;
  }

  // ---------- the key ----------

  function ObjectPart(t: GrantTarget, printable: char -> bool): string {
    if t.oid != 0 then "#" + PrintInt(t.oid) else Quote(t.name, printable)
  }

  function RolePart(t: GrantTarget, printable: char -> bool): string {
    if t.forRole != "" then "|" + Quote(t.forRole, printable) else ""
  }

  function Key(t: GrantTarget, printable: char -> bool): string {
    t.kind + "|" + ObjectPart(t, printable) + "|" + Quote(t.grantee, printable) + RolePart(t, printable)
  }

  /** The same object: by OID when one is recorded, by name otherwise. */
  predicate SameObject(a: GrantTarget, b: GrantTarget) {
    a.oid == b.oid && (a.oid == 0 ==> a.name == b.name)
  }

  lemma SplitAtBar(a: string, x: string, b: string, y: string)
    requires '|' !in a && '|' !in b && a + ("|" + x) == b + ("|" + y)
    ensures a == b && x == y
  {
    var s, t := a + ("|" + x), b + ("|" + y);
    assert s[|a|] == '|' && t[|b|] == '|';
    assert a == s[..|a|] && b == t[..|b|];
    assert s[|a|..][1..] == x && t[|b|..][1..] == y;
  }

  lemma ObjectPartPrefix(a: GrantTarget, x: string, b: GrantTarget, y: string, printable: char -> bool)
    requires ObjectPart(a, printable) + ("|" + x) == ObjectPart(b, printable) + ("|" + y)
    ensures SameObject(a, b) && x == y
  {
    var oa, ob := ObjectPart(a, printable), ObjectPart(b, printable);
    assert (oa + ("|" + x))[0] == oa[0] && (ob + ("|" + y))[0] == ob[0];
    if a.oid != 0 {
      PrintIntChars(a.oid);
      PrintIntChars(b.oid);
      SplitAtBar(oa, x, ob, y);
      assert oa[1..] == PrintInt(a.oid) && ob[1..] == PrintInt(b.oid);
      PrintIntInjective(a.oid, b.oid);
    } else {
      QuotePrefix(a.name, "|" + x, b.name, "|" + y, printable);
      assert ("|" + x)[1..] == x && ("|" + y)[1..] == y;
    }
  }

  lemma RolePartInjective(a: GrantTarget, b: GrantTarget, printable: char -> bool)
    requires RolePart(a, printable) == RolePart(b, printable)
    ensures a.forRole == b.forRole
  {
    if a.forRole != "" && b.forRole != "" {
      assert RolePart(a, printable)[1..] == Quote(a.forRole, printable) + "";
      assert RolePart(b, printable)[1..] == Quote(b.forRole, printable) + "";
      QuotePrefix(a.forRole, "", b.forRole, "", printable);
    }
  }

  lemma Regroup(k: string, o: string, q: string, r: string)
    ensures k + "|" + o + "|" + q + r == k + ("|" + (o + ("|" + (q + r))))
  {
    assert k + "|" + o + "|" + q + r == k + "|" + o + "|" + (q + r);
    assert k + "|" + o + "|" + (q + r) == k + "|" + (o + ("|" + (q + r)));
  }

  lemma SameKeyParts(a: GrantTarget, b: GrantTarget, printable: char -> bool)
    requires '|' !in a.kind && '|' !in b.kind && Key(a, printable) == Key(b, printable)
    ensures a.kind == b.kind && a.grantee == b.grantee && a.forRole == b.forRole && SameObject(a, b)
  {
    var ra, rb := Quote(a.grantee, printable) + RolePart(a, printable),
        Quote(b.grantee, printable) + RolePart(b, printable);
    var oa, ob := ObjectPart(a, printable) + ("|" + ra), ObjectPart(b, printable) + ("|" + rb);
    Regroup(a.kind, ObjectPart(a, printable), Quote(a.grantee, printable), RolePart(a, printable));
    Regroup(b.kind, ObjectPart(b, printable), Quote(b.grantee, printable), RolePart(b, printable));
    SplitAtBar(a.kind, oa, b.kind, ob);
    ObjectPartPrefix(a, ra, b, rb, printable);
    QuotePrefix(a.grantee, RolePart(a, printable), b.grantee, RolePart(b, printable), printable);
    RolePartInjective(a, b, printable);
  }

  /** Two targets have the same ledger key exactly when kind, grantee and forRole agree and they are
      the same object, whatever bars, quotes, backslashes or control characters the names hold.
      (Kinds are pgop's own keywords, without a bar.) */
  lemma KeyIdentifies(a: GrantTarget, b: GrantTarget, printable: char -> bool)
    requires '|' !in a.kind && '|' !in b.kind
    ensures Key(a, printable) == Key(b, printable) <==>
            a.kind == b.kind && a.grantee == b.grantee && a.forRole == b.forRole && SameObject(a, b)
  {
    if Key(a, printable) == Key(b, printable) {
      SameKeyParts(a, b, printable);
    }
  }
}
