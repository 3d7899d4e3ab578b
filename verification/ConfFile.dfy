/** The generated postgresql.conf, and the server's reader, which undoes it. */
module ConfFile {
  import opened Option

  // ---------- printing ----------

  function Escape(c: char): string {
    if c == '\\' then "\\\\"
    else if c == '\'' then "''"
    else if c == '\n' then "\\n"
    else if c == '\r' then "\\r"
    else [c]
  }

  function EscapeAll(v: string): string {
    if v == "" then "" else Escape(v[0]) + EscapeAll(v[1..])
  }

  function Quote(v: string): string {
    "'" + EscapeAll(v) + "'"
  }

  const COMMENT := "# Generated by pgop" + " from Cluster spec." + "parameters. Changes" + " are overwritten."
  const INCLUDE := "include_if_exists"

  function Header(): string {
    COMMENT + "\n"
  }

  function IncludeLine(pgdata: string): string {
    INCLUDE + " " + Quote(pgdata + "/postgresql.conf") + "\n"
  }

  function Line(k: string, v: string): string {
    k + " = " + Quote(v) + "\n"
  }

  function Lines(keys: seq<string>, params: map<string, string>): string
    requires forall k <- keys :: k in params
  {
    if keys == [] then "" else Line(keys[0], params[keys[0]]) + Lines(keys[1..], params)
  }

  function Conf(keys: seq<string>, params: map<string, string>, pgdata: string): string
    requires forall k <- keys :: k in params
  {
    Header() + (IncludeLine(pgdata) + Lines(keys, params))
  }

  // ---------- the server's reader ----------

  predicate Letter(c: char) {
    'a' <= c <= 'z' || 'A' <= c <= 'Z' || c == '_'
  }

  predicate NameChar(c: char) {
    Letter(c) || '0' <= c <= '9' || c == '.'
  }

  /** ^[a-zA-Z_][a-zA-Z0-9_.]*$ */
  predicate IsName(k: string) {
    k != "" && Letter(k[0]) && forall c <- k :: NameChar(c)
  }

  predicate Octal(c: char) {
    '0' <= c <= '7'
  }

  /** The value of up to n octal digits at the front, and how many there are. */
  function ReadOctal(s: string, n: nat): (r: (int, nat))
    ensures r.1 <= n && r.1 <= |s| && r.0 >= 0
  {
    if n == 0 || s == "" || !Octal(s[0]) then (0, 0)
    else
      var rest := ReadOctal(s[1..], n - 1);
      ((s[0] as int - '0' as int) * Power8(rest.1) + rest.0, rest.1 + 1)
  }

  function Power8(n: nat): (p: nat) {
    if n == 0 then 1 else 8 * Power8(n - 1)
  }

  function Unescape(c: char): char {
    match c
    case 'b' => 8 as char
    case 'f' => 12 as char
    case 'n' => '\n'
    case 'r' => '\r'
    case 't' => '\t'
    case _ => c
  }

  /** A quoted string after its opening quote: its value, and what follows the closing quote. */
  function ReadQuoted(s: string): (r: Option<(string, string)>)
    ensures r.Some? ==> |r.value.1| < |s|
    decreases |s|
  {
    if s == "" || s[0] == '\n' then None
    else if s[0] == '\'' then
      if |s| > 1 && s[1] == '\'' then Then('\'', ReadQuoted(s[2..])) else Some(("", s[1..]))
    else if s[0] != '\\' then Then(s[0], ReadQuoted(s[1..]))
    else if |s| == 1 || s[1] == '\n' then None
    else if Octal(s[1]) then
      var o := ReadOctal(s[1..], 3);
      Then((o.0 % 256) as char, ReadQuoted(s[1 + (if o.1 == 0 then 1 else o.1)..]))
    else Then(Unescape(s[1]), ReadQuoted(s[2..]))
  }

  function Then(c: char, r: Option<(string, string)>): Option<(string, string)> {
    if r.None? then None else Some(([c] + r.value.0, r.value.1))
  }

  function SkipBlanks(s: string): (r: string)
    ensures |r| <= |s|
  {
    if s != "" && (s[0] == ' ' || s[0] == '\t') then SkipBlanks(s[1..]) else s
  }

  function SkipLine(s: string): (r: string)
    ensures |r| <= |s| && (s != "" ==> |r| < |s|)
  {
    if s == "" then "" else if s[0] == '\n' then s[1..] else SkipLine(s[1..])
  }

  function NameLength(s: string): (n: nat)
    ensures n <= |s|
  {
    if s != "" && NameChar(s[0]) then 1 + NameLength(s[1..]) else 0
  }

  datatype Setting = Setting(name: string, value: string)

  /** What follows a name on its line: an optional equals sign, and a quoted value (others are not
      modelled); and what follows the line. */
  function ReadValue(s: string): (r: Option<(string, string)>)
    ensures r.Some? ==> |r.value.1| < |s|
  {
    var t := SkipBlanks(s);
    var u := if t != "" && t[0] == '=' then SkipBlanks(t[1..]) else t;
    if u == "" || u[0] != '\'' then None
    else
      var q := ReadQuoted(u[1..]);
      if q.None? then None
      else
        var end := SkipBlanks(q.value.1);
        if end != "" && end[0] != '\n' && end[0] != '#' then None else Some((q.value.0, SkipLine(end)))
  }

  /** The settings of a file in order; a comment or an empty line is none. None: a syntax error. */
  function Read(s: string): Option<seq<Setting>>
    decreases |s|
  {
    if s == "" then Some([])
    else if s[0] == '#' || s[0] == '\n' then Read(SkipLine(s))
    else if !Letter(s[0]) then None
    else
      var n := NameLength(s);
      var v := ReadValue(s[n..]);
      if v.None? then None else Followed(Setting(s[..n], v.value.0), Read(v.value.1))
  }

  function Followed(first: Setting, rest: Option<seq<Setting>>): Option<seq<Setting>> {
    if rest.None? then None else Some([first] + rest.value)
  }

  // ---------- reading back ----------

  /** An escaped character is read as that character. */
  lemma ReadEscape(c: char, t: string)
    ensures ReadQuoted(Escape(c) + t) == Then(c, ReadQuoted(t))
  {
    var s := Escape(c) + t;
    if |Escape(c)| == 2 {
      assert s[2..] == t && s[0] == Escape(c)[0] && s[1] == Escape(c)[1];
    } else {
      assert s[1..] == t && s[0] == c;
    }
  }

  lemma Regroup(a: string, b: string, c: string)
    ensures (a + b) + c == a + (b + c)
  {
  }

  /** What is read after an opening quote is the value, whatever it holds. */
  lemma {:induction false} ReadEscaped(v: string, rest: string)
    requires rest == "" || rest[0] != '\''
    ensures ReadQuoted(EscapeAll(v) + ("'" + rest)) == Some((v, rest))
  {
    var end := "'" + rest;
    if v == "" {
      assert EscapeAll(v) + end == end && end[1..] == rest;
    } else {
      Regroup(Escape(v[0]), EscapeAll(v[1..]), end);
      ReadEscape(v[0], EscapeAll(v[1..]) + end);
      ReadEscaped(v[1..], rest);
      assert [v[0]] + v[1..] == v;
    }
  }

  lemma {:induction false} NameLengthOf(k: string, rest: string)
    requires (forall c <- k :: NameChar(c)) && rest != "" && !NameChar(rest[0])
    ensures NameLength(k + rest) == |k|
  {
    if k == "" {
      assert k + rest == rest;
    } else {
      assert (k + rest)[1..] == k[1..] + rest;
      NameLengthOf(k[1..], rest);
    }
  }

  predicate Separator(s: string) {
    s == " " || s == " = "
  }

  /** Blanks and the equals sign are skipped. */
  lemma SkipSeparator(separator: string, value: string)
    requires Separator(separator) && value != "" && value[0] == '\''
    ensures var t := SkipBlanks(separator + value);
            (if t != "" && t[0] == '=' then SkipBlanks(t[1..]) else t) == value
  {
    assert SkipBlanks(value) == value;
    var s := separator + value;
    if separator == " " {
      assert s[1..] == value;
    } else {
      var t, u := "= " + value, " " + value;
      assert s[1..] == t && t[1..] == u && u[1..] == value;
      assert SkipBlanks(t) == t && SkipBlanks(u) == value;
    }
  }

  lemma ReadValueOf(separator: string, v: string, rest: string)
    requires Separator(separator)
    ensures ReadValue(separator + (Quote(v) + ("\n" + rest))) == Some((v, rest))
  {
    var line := "\n" + rest;
    var value := Quote(v) + line;
    assert value[0] == '\'' && value[1..] == EscapeAll(v) + ("'" + line);
    SkipSeparator(separator, value);
    ReadEscaped(v, line);
    assert line[1..] == rest;
    assert SkipBlanks(line) == line && SkipLine(line) == rest;
  }

  lemma ReadNamed(k: string, tail: string, v: string, rest: string)
    requires IsName(k) && tail != "" && !NameChar(tail[0]) && ReadValue(tail) == Some((v, rest))
    ensures Read(k + tail) == Followed(Setting(k, v), Read(rest))
  {
    var s := k + tail;
    NameLengthOf(k, tail);
    assert s[0] == k[0] && s[|k|..] == tail && s[..|k|] == k;
  }

  /** A name, a separator, a quoted value and a newline are read as that setting. */
  lemma ReadLine(k: string, separator: string, v: string, rest: string)
    requires IsName(k) && Separator(separator)
    ensures Read(k + (separator + (Quote(v) + ("\n" + rest)))) == Followed(Setting(k, v), Read(rest))
  {
    ReadValueOf(separator, v, rest);
    var tail := separator + (Quote(v) + ("\n" + rest));
    assert tail[0] == ' ';
    ReadNamed(k, tail, v, rest);
  }

  lemma RegroupLine(k: string, separator: string, q: string, rest: string)
    ensures k + separator + q + "\n" + rest == k + (separator + (q + ("\n" + rest)))
  {
  }

  function Settings(keys: seq<string>, params: map<string, string>): (r: seq<Setting>)
    requires forall k <- keys :: k in params
    ensures |r| == |keys| && forall i :: 0 <= i < |keys| ==> r[i] == Setting(keys[i], params[keys[i]])
  {
    if keys == [] then [] else [Setting(keys[0], params[keys[0]])] + Settings(keys[1..], params)
  }

  lemma {:induction false} ReadLines(keys: seq<string>, params: map<string, string>)
    requires forall k <- keys :: k in params && IsName(k)
    ensures Read(Lines(keys, params)) == Some(Settings(keys, params))
  {
    if keys != [] {
      ReadLines(keys[1..], params);
      var k, v, rest := keys[0], params[keys[0]], Lines(keys[1..], params);
      ReadLine(k, " = ", v, rest);
      RegroupLine(k, " = ", Quote(v), rest);
    }
  }

  lemma {:induction false} SkipComment(s: string, rest: string)
    requires '\n' !in s
    ensures SkipLine(s + "\n" + rest) == rest
  {
    if s == "" {
      assert (s + "\n" + rest)[1..] == rest;
    } else {
      assert (s + "\n" + rest)[1..] == s[1..] + "\n" + rest;
      SkipComment(s[1..], rest);
    }
  }

  lemma ReadComment(text: string, rest: string)
    requires text != "" && text[0] == '#' && '\n' !in text
    ensures Read(text + "\n" + rest) == Read(rest)
  {
    assert (text + "\n" + rest)[0] == '#';
    SkipComment(text, rest);
  }

  lemma HeaderIsComment()
    ensures COMMENT != "" && COMMENT[0] == '#' && '\n' !in COMMENT
  {
    assert '\n' !in "# Generated by pgop";
    assert '\n' !in " from Cluster spec.";
    assert '\n' !in "parameters. Changes";
    assert '\n' !in " are overwritten.";
  }

  /** The server reads the include line and then exactly the parameters in key order, with unchanged
      values, whatever quotes, backslashes and line breaks these hold. */
  lemma ReadConf(keys: seq<string>, params: map<string, string>, pgdata: string)
    requires forall k <- keys :: k in params && IsName(k)
    ensures Read(Conf(keys, params, pgdata))
            == Some([Setting("include_if_exists", pgdata + "/postgresql.conf")] + Settings(keys, params))
  {
    var lines := Lines(keys, params);
    var body := IncludeLine(pgdata) + lines;
    ReadLines(keys, params);
    ReadLine(INCLUDE, " ", pgdata + "/postgresql.conf", lines);
    RegroupLine(INCLUDE, " ", Quote(pgdata + "/postgresql.conf"), lines);
    HeaderIsComment();
    ReadComment(COMMENT, body);
  }

  // ---------- the order of the keys ----------

  /** The order of Go's strings. */
  predicate Before(a: string, b: string) {
    if a == "" then b != ""
    else if b == "" then false
    else a[0] < b[0] || (a[0] == b[0] && Before(a[1..], b[1..]))
  }

  /** Up to i they agree; then a ends, or has the lower character. */
  ghost predicate DifferAt(a: string, b: string, i: nat) {
    i <= |a| && i < |b| && a[..i] == b[..i] && (i < |a| ==> a[i] < b[i])
  }

  /** It is the lexicographic order. */
  lemma {:induction false} BeforeMeans(a: string, b: string)
    ensures Before(a, b) <==> exists i: nat :: DifferAt(a, b, i)
  {
    if a == "" || b == "" {
      assert a == "" && b != "" ==> DifferAt(a, b, 0);
    } else {
      BeforeMeans(a[1..], b[1..]);
      if a[0] < b[0] {
        assert DifferAt(a, b, 0);
      } else if i: nat :| a[0] == b[0] && DifferAt(a[1..], b[1..], i) {
        assert a[..i + 1] == [a[0]] + a[1..][..i] == b[..i + 1];
        assert DifferAt(a, b, i + 1);
      }
      if i: nat :| DifferAt(a, b, i) {
        if i > 0 {
          assert a[0] == a[..i][0] == b[..i][0] == b[0];
          assert a[1..][..i - 1] == a[..i][1..] == b[1..][..i - 1];
          assert DifferAt(a[1..], b[1..], i - 1);
        }
      }
    }
  }

  lemma {:induction false} BeforeTotal(a: string, b: string)
    ensures a == b || Before(a, b) || Before(b, a)
    ensures !(Before(a, b) && Before(b, a)) && !Before(a, a)
  {
    if a != "" && b != "" {
      BeforeTotal(a[1..], b[1..]);
      assert a[0] == b[0] && a[1..] == b[1..] ==> a == [a[0]] + a[1..] == b;
    }
    if a != "" {
      BeforeTotal(a[1..], a[1..]);
    }
  }

  lemma {:induction false} BeforeTransitive(a: string, b: string, c: string)
    requires Before(a, b) && Before(b, c)
    ensures Before(a, c)
  {
    if a != "" && a[0] == b[0] == c[0] {
      BeforeTransitive(a[1..], b[1..], c[1..]);
    }
  }

  ghost predicate Ordered(keys: seq<string>) {
    forall i, j :: 0 <= i < j < |keys| ==> Before(keys[i], keys[j])
  }

  method SortedKeys(names: set<string>) returns (keys: seq<string>)
    ensures Ordered(keys) && forall k :: k in keys <==> k in names
  {
    keys := [];
    var rest := names;
    while rest != {}
      invariant rest <= names && Ordered(keys) && forall k :: k in keys <==> k in names - rest
      invariant forall k <- keys :: forall l <- rest :: Before(k, l)
      decreases rest
    {
      var least := Least(rest);
      assert forall k <- keys :: Before(k, least);
      keys, rest := keys + [least], rest - {least};
    }
  }

  method Least(names: set<string>) returns (least: string)
    requires names != {}
    ensures least in names && forall k <- names :: k == least || Before(least, k)
  {
    least :| least in names;
    var rest := names - {least};
    while rest != {}
      invariant rest <= names && least in names && least !in rest
      invariant forall k <- names - rest :: k == least || Before(least, k)
      decreases rest
    {
      var k :| k in rest;
      rest := rest - {k};
      BeforeTotal(k, least);
      if Before(k, least) {
        forall l <- names - rest ensures l == k || Before(k, l) {
          if l != k && l != least {
            BeforeTransitive(k, least, l);
          }
        }
        least := k;
      }
    }
  }

  /** renderPostgresConf, without the hash. */
  method Render(params: map<string, string>, pgdata: string) returns (conf: string, keys: seq<string>)
    requires forall k <- params :: IsName(k)
    ensures Ordered(keys) && (forall k :: k in keys <==> k in params)
    ensures conf == Conf(keys, params, pgdata)
    ensures Read(conf) == Some([Setting("include_if_exists", pgdata + "/postgresql.conf")] + Settings(keys, params))
  {
    keys := SortedKeys(params.Keys);
    conf := Header() + IncludeLine(pgdata);
    for i := 0 to |keys|
      invariant conf == Header() + IncludeLine(pgdata) + Lines(keys[..i], params)
    {
      var line := keys[i] + " = " + Quote(params[keys[i]]) + "\n";
      LinesNext(keys, params, i);
      Regroup(Header() + IncludeLine(pgdata), Lines(keys[..i], params), line);
      conf := conf + line;
    }
    assert keys[..|keys|] == keys;
    Regroup(Header(), IncludeLine(pgdata), Lines(keys, params));
    ReadConf(keys, params, pgdata);
  }

  lemma {:induction false} LinesNext(keys: seq<string>, params: map<string, string>, i: nat)
    requires i < |keys| && forall k <- keys :: k in params
    ensures Lines(keys[..i + 1], params) == Lines(keys[..i], params) + Line(keys[i], params[keys[i]])
  {
    if i > 0 {
      LinesNext(keys[1..], params, i - 1);
      assert keys[..i + 1][1..] == keys[1..][..i] && keys[..i][1..] == keys[1..][..i - 1];
    } else {
      assert keys[..1] == [keys[0]] && keys[..0] == [];
      assert Lines([keys[0]], params) == Line(keys[0], params[keys[0]]) + Lines([], params);
    }
  }

  /** Different parameters are never rendered alike. */
  lemma RenderIsInjective(keys1: seq<string>, params1: map<string, string>, keys2: seq<string>,
                          params2: map<string, string>, pgdata: string)
    requires (forall k <- params1 :: IsName(k)) && (forall k <- params2 :: IsName(k))
    requires (forall k :: k in keys1 <==> k in params1) && (forall k :: k in keys2 <==> k in params2)
    requires Conf(keys1, params1, pgdata) == Conf(keys2, params2, pgdata)
    ensures keys1 == keys2 && params1 == params2
  {
    ReadConf(keys1, params1, pgdata);
    ReadConf(keys2, params2, pgdata);
    AppendInjective(Setting(INCLUDE, pgdata + "/postgresql.conf"), Settings(keys1, params1), Settings(keys2, params2));
    SettingsInjective(keys1, params1, keys2, params2);
    forall k <- params1 ensures k in params2 && params1[k] == params2[k] {
      assert k in keys1;
    }
    forall k <- params2 ensures k in params1 {
      assert k in keys2;
    }
  }

  lemma AppendInjective(first: Setting, s: seq<Setting>, t: seq<Setting>)
    requires [first] + s == [first] + t
    ensures s == t
  {
    assert ([first] + s)[1..] == s && ([first] + t)[1..] == t;
  }

  lemma SettingsInjective(keys1: seq<string>, params1: map<string, string>, keys2: seq<string>,
                          params2: map<string, string>)
    requires (forall k <- keys1 :: k in params1) && (forall k <- keys2 :: k in params2)
    requires Settings(keys1, params1) == Settings(keys2, params2)
    ensures keys1 == keys2 && forall k <- keys1 :: params1[k] == params2[k]
  {
    var s, t := Settings(keys1, params1), Settings(keys2, params2);
    forall i | 0 <= i < |keys1| ensures keys1[i] == keys2[i] && params1[keys1[i]] == params2[keys2[i]] {
      assert s[i] == t[i];
    }
  }
}
