/** PostgreSQL key=value connection strings (internal/db/database.go). */
module Dsn {
  import opened Text

  // Splitting.

  /** The fields of s, given the field being built and whether a quote is open. */
  function Scan(s: string, cur: string, inQuote: bool): seq<string> {
    if s == "" then (if cur == "" then [] else [cur])
    else if s[0] == '\'' then Scan(s[1..], cur + [s[0]], !inQuote)
    else if s[0] == ' ' && !inQuote then (if cur == "" then [] else [cur]) + Scan(s[1..], "", false)
    else Scan(s[1..], cur + [s[0]], inQuote)
  }

  /** Scanning piece from quote state q reads it as one stretch, ending in state q'. */
  ghost predicate Solid(piece: string, q: bool, q': bool)
    decreases |piece|
  {
    if piece == "" then q == q'
    else if piece[0] == '\'' then Solid(piece[1..], !q, q')
    else (piece[0] != ' ' || q) && Solid(piece[1..], q, q')
  }

  lemma {:induction false} SolidJoin(a: string, b: string, q: bool, q': bool, q'': bool)
    requires Solid(a, q, q') && Solid(b, q', q'')
    ensures Solid(a + b, q, q'')
    decreases |a|
  {
    if a == "" {
      assert a + b == b;
    } else {
      SolidJoin(a[1..], b, if a[0] == '\'' then !q else q, q', q'');
      assert (a + b)[1..] == a[1..] + b;
    }
  }

  lemma {:induction false} ScanSolid(piece: string, rest: string, cur: string, q: bool, q': bool)
    requires Solid(piece, q, q')
    ensures Scan(piece + rest, cur, q) == Scan(rest, cur + piece, q')
    decreases |piece|
  {
    if piece == "" {
      assert piece + rest == rest && cur + piece == cur;
    } else {
      var c := piece[0];
      ScanSolid(piece[1..], rest, cur + [c], if c == '\'' then !q else q, q');
      assert (piece + rest)[0] == c && (piece + rest)[1..] == piece[1..] + rest;
      assert cur + [c] + piece[1..] == cur + piece;
    }
  }

  /** strings.Join(parts, " "). */
  function Join(parts: seq<string>): string {
    if parts == [] then "" else if |parts| == 1 then parts[0] else parts[0] + " " + Join(parts[1..])
  }

  /** Splitting undoes joining, for parts whose spaces are all quoted. */
  lemma {:induction false} SplitJoin(parts: seq<string>)
    requires forall i | 0 <= i < |parts| :: parts[i] != "" && Solid(parts[i], false, false)
    ensures Scan(Join(parts), "", false) == parts
  {
    if parts != [] {
      var p := parts[0];
      SplitJoin(parts[1..]);
      var rest := if |parts| == 1 then "" else " " + Join(parts[1..]);
      ScanSolid(p, rest, "", false, false);
      assert Join(parts) == p + rest;
      assert "" + p == p;
      if |parts| > 1 {
        assert rest[1..] == Join(parts[1..]);
      }
    }
  }

  method SplitDSNFields(dsn: string) returns (fields: seq<string>)
    ensures fields == Scan(dsn, "", false)
  {
    fields := [];
    var cur, inQuote := "", false;
    for i := 0 to |dsn|
      invariant fields + Scan(dsn[i..], cur, inQuote) == Scan(dsn, "", false)
    {
      var r := dsn[i];
      assert dsn[i..][1..] == dsn[i + 1..];
      if r == '\'' {
        inQuote := !inQuote;
        cur := cur + [r];
      } else if r == ' ' && !inQuote {
        if |cur| > 0 {
          fields := fields + [cur];
          cur := "";
        }
      } else {
        cur := cur + [r];
      }
    }
    if |cur| > 0 {
      fields := fields + [cur];
    }
  }

  // Quoting.

  /** strings.ReplaceAll(v, "'", "''"). */
  function Double(v: string): string {
    if v == "" then "" else (if v[0] == '\'' then "''" else [v[0]]) + Double(v[1..])
  }

  /** strings.ReplaceAll(v, "''", "'"). */
  function Undouble(v: string): string {
    if v == "" then ""
    else if |v| >= 2 && v[0] == '\'' && v[1] == '\'' then "'" + Undouble(v[2..])
    else [v[0]] + Undouble(v[1..])
  }

  predicate NeedsQuote(v: string) {
    exists c :: c in v && (c == ' ' || c == '\'' || c == '\\')
  }

  function Quoted(v: string): string { "'" + Double(v) + "'" }

  function Quote(v: string): string {
    if NeedsQuote(v) then Quoted(v) else v
  }

  function Unquote(v: string): string {
    if |v| >= 2 && v[0] == '\'' && v[|v| - 1] == '\'' then Undouble(v[1..|v| - 1]) else v
  }

  lemma {:induction false} UndoubleDouble(v: string)
    ensures Undouble(Double(v)) == v
  {
    if v != "" {
      UndoubleDouble(v[1..]);
      var d := Double(v);
      if v[0] == '\'' {
        assert d[2..] == Double(v[1..]);
      } else {
        assert d[0] == v[0] && d[1..] == Double(v[1..]);
      }
    }
  }

  lemma {:induction false} DoubleSolid(v: string)
    ensures Solid(Double(v), true, true)
  {
    if v != "" {
      DoubleSolid(v[1..]);
      var d := Double(v);
      if v[0] == '\'' {
        assert d[1..][1..] == Double(v[1..]);
      } else {
        assert d[1..] == Double(v[1..]);
      }
    }
  }

  lemma {:induction false} PlainSolid(v: string)
    requires !NeedsQuote(v)
    ensures Solid(v, false, false)
    decreases |v|
  {
    if v != "" {
      assert v[0] in v;
      assert forall c :: c in v[1..] ==> c in v;
      PlainSolid(v[1..]);
    }
  }

  lemma QuotedSolid(v: string)
    ensures Solid(Quoted(v), false, false)
  {
    DoubleSolid(v);
    assert Solid("'", true, false) && Solid("'", false, true);
    SolidJoin("'", Double(v), false, true, true);
    SolidJoin("'" + Double(v), "'", false, true, false);
  }

  lemma QuoteSolid(v: string)
    ensures Solid(Quote(v), false, false)
  {
    if NeedsQuote(v) {
      QuotedSolid(v);
    } else {
      PlainSolid(v);
    }
  }

  /** What a value becomes when printed and parsed again: quoted values come back as they
      were, the others lose the white space at their edges. */
  function Survivor(v: string): string {
    if NeedsQuote(v) then v else TrimSpace(v)
  }

  lemma UnquoteQuote(v: string)
    ensures Unquote(TrimSpace(Quote(v))) == Survivor(v)
  {
    if NeedsQuote(v) {
      QuotedComesBack(v);
    } else {
      var t := TrimSpace(v);
      if |t| > 0 {
        assert t[0] in v;
      }
    }
  }

  lemma QuotedComesBack(v: string)
    ensures TrimSpace(Quoted(v)) == Quoted(v) && Unquote(Quoted(v)) == v
  {
    var q := Quoted(v);
    TrimSpaceTrims(q);
    UndoubleDouble(v);
    assert q[1..|q| - 1] == Double(v);
  }

  // Parsing.

  /** strings.IndexByte(s, '='), or |s| when there is none. */
  function Equals(s: string): (i: nat)
    ensures i <= |s| && (i < |s| ==> s[i] == '=') && forall k | 0 <= k < i :: s[k] != '='
  {
    if s == "" || s[0] == '=' then 0 else 1 + Equals(s[1..])
  }

  /** One key=value field. */
  function Field(field: string): Option<(string, string)> {
    var i := Equals(field);
    if i == |field| then None
    else Some((TrimSpace(field[..i]), Unquote(TrimSpace(field[i + 1..]))))
  }

  /** The fields read left to right into kv, later keys overwriting earlier ones; None at
      the first field without '='. */
  function Collect(fields: seq<string>, kv: map<string, string>): Option<map<string, string>> {
    if fields == [] then Some(kv)
    else
      match Field(fields[0])
      case None => None
      case Some(p) => Collect(fields[1..], kv[p.0 := p.1])
  }

  predicate IsURL(dsn: string) {
    exists i | 0 <= i <= |dsn| - 3 :: SchemeEnd(dsn, i)
  }

  predicate SchemeEnd(dsn: string, i: nat)
    requires i <= |dsn| - 3
  {
    dsn[i] == ':' && dsn[i + 1] == '/' && dsn[i + 2] == '/'
  }

  /** parsePostgresKV as a function; fromURL stands for postgresURLToKV. */
  function Parse(dsn: string, fromURL: string -> Option<string>): Option<map<string, string>> {
    if !IsURL(dsn) then Collect(Scan(dsn, "", false), map[])
    else
      match fromURL(dsn)
      case None => None
      case Some(plain) => Collect(Scan(plain, "", false), map[])
  }

  method ParsePostgresKV(dsn: string, fromURL: string -> Option<string>) returns (kv: Option<map<string, string>>)
    ensures kv == Parse(dsn, fromURL)
  {
    var text := dsn;
    if IsURL(dsn) {
      var parsed := fromURL(dsn);
      if parsed == None {
        return None;
      }
      text := parsed.value;
    }
    var fields := SplitDSNFields(text);
    var m: map<string, string> := map[];
    for i := 0 to |fields|
      invariant Collect(fields[i..], m) == Collect(fields, map[])
    {
      assert fields[i..][0] == fields[i] && fields[i..][1..] == fields[i + 1..];
      var f := Field(fields[i]);
      if f == None {
        return None;
      }
      m := m[f.value.0 := f.value.1];
    }
    return Some(m);
  }

  // Printing.

  /** A key the format can carry. */
  ghost predicate CleanKey(k: string) {
    NoEdgeSpace(k) && ' ' !in k && '\'' !in k && '=' !in k
  }

  ghost predicate CleanKeys(m: map<string, string>) {
    forall k :: k in m ==> CleanKey(k)
  }

  /** No key and no value holds "://". */
  ghost predicate NoURLs(m: map<string, string>) {
    forall k :: k in m ==> !IsURL(k) && !IsURL(m[k])
  }

  function Part(k: string, v: string): string { k + "=" + Quote(v) }

  function Parts(m: map<string, string>, keys: seq<string>): (parts: seq<string>)
    requires forall k :: k in keys ==> k in m
    ensures |parts| == |keys|
  {
    seq(|keys|, i requires 0 <= i < |keys| => Part(keys[i], m[keys[i]]))
  }

  /** keys lists the keys of m, each once. */
  ghost predicate IsOrder(m: map<string, string>, keys: seq<string>) {
    && (forall k :: k in keys <==> k in m)
    && (forall i, j :: 0 <= i < j < |keys| ==> keys[i] != keys[j])
  }

  /** The connection string that lists m in the order keys. */
  function Print(m: map<string, string>, keys: seq<string>): string
    requires forall k :: k in keys ==> k in m
  {
    Join(Parts(m, keys))
  }

  lemma EqualsAt(k: string, v: string)
    requires '=' !in k
    ensures Equals(k + "=" + v) == |k|
  {
    var s := k + "=" + v;
    assert s[|k|] == '=';
    forall j | 0 <= j < |k| ensures s[j] != '=' {
      assert s[j] == k[j] && k[j] in k;
    }
  }

  lemma FieldOfPart(k: string, v: string)
    requires CleanKey(k)
    ensures Field(Part(k, v)) == Some((k, Survivor(v)))
  {
    EqualsAt(k, Quote(v));
    TrimSpaceTrims(k);
    UnquoteQuote(v);
    assert Part(k, v)[..|k|] == k && Part(k, v)[|k| + 1..] == Quote(v);
  }

  lemma {:induction false} KeySolid(k: string)
    requires ' ' !in k && '\'' !in k
    ensures Solid(k, false, false)
    decreases |k|
  {
    if k != "" {
      assert k[0] in k && forall c :: c in k[1..] ==> c in k;
      KeySolid(k[1..]);
    }
  }

  lemma SettingSolid(k: string, text: string)
    requires CleanKey(k) && Solid(text, false, false)
    ensures Solid(k + "=" + text, false, false)
  {
    KeySolid(k);
    assert Solid("=", false, false);
    SolidJoin(k, "=", false, false, false);
    SolidJoin(k + "=", text, false, false, false);
  }

  lemma PartSolid(k: string, v: string)
    requires CleanKey(k)
    ensures Part(k, v) != "" && Solid(Part(k, v), false, false)
  {
    QuoteSolid(v);
    SettingSolid(k, Quote(v));
  }

  /** What reading the keys one after the other makes of kv. */
  function Loaded(m: map<string, string>, keys: seq<string>, kv: map<string, string>): map<string, string>
    requires forall k :: k in keys ==> k in m
  {
    if keys == [] then kv else Loaded(m, keys[1..], kv[keys[0] := Survivor(m[keys[0]])])
  }

  lemma {:induction false} LoadedHolds(m: map<string, string>, keys: seq<string>, kv: map<string, string>, k: string)
    requires forall x :: x in keys ==> x in m
    ensures var r := Loaded(m, keys, kv);
      && (k in r <==> k in keys || k in kv)
      && (k in keys ==> r[k] == Survivor(m[k]))
      && (k !in keys && k in kv ==> r[k] == kv[k])
    decreases |keys|
  {
    if keys != [] {
      LoadedHolds(m, keys[1..], kv[keys[0] := Survivor(m[keys[0]])], k);
    }
  }

  lemma {:induction false} CollectParts(m: map<string, string>, keys: seq<string>, kv: map<string, string>)
    requires CleanKeys(m) && forall k :: k in keys ==> k in m
    ensures Collect(Parts(m, keys), kv) == Some(Loaded(m, keys, kv))
    decreases |keys|
  {
    if keys != [] {
      var k := keys[0];
      FieldOfPart(k, m[k]);
      assert Parts(m, keys)[1..] == Parts(m, keys[1..]);
      CollectParts(m, keys[1..], kv[k := Survivor(m[k])]);
    }
  }

  /** Every value as it survives. */
  function Survivors(m: map<string, string>): map<string, string> {
    map k | k in m :: Survivor(m[k])
  }

  /** Splitting and reading what was printed, in any key order. */
  lemma ReadsBack(m: map<string, string>, keys: seq<string>)
    requires CleanKeys(m) && IsOrder(m, keys)
    ensures Collect(Scan(Print(m, keys), "", false), map[]) == Some(Survivors(m))
  {
    forall i | 0 <= i < |keys| ensures Parts(m, keys)[i] != "" && Solid(Parts(m, keys)[i], false, false) {
      PartSolid(keys[i], m[keys[i]]);
    }
    SplitJoin(Parts(m, keys));
    CollectParts(m, keys, map[]);
    forall k ensures k in Loaded(m, keys, map[]) <==> k in m
      ensures k in m ==> Loaded(m, keys, map[])[k] == Survivor(m[k])
    {
      LoadedHolds(m, keys, map[], k);
    }
    assert Loaded(m, keys, map[]) == Survivors(m);
  }

  // The printed string is never mistaken for a URL.

  lemma TailURL(c: char, v: string)
    requires IsURL(v)
    ensures IsURL([c] + v)
  {
    var i :| 0 <= i <= |v| - 3 && SchemeEnd(v, i);
    assert SchemeEnd([c] + v, i + 1);
  }

  lemma ConsURL(c: char, v: string)
    requires IsURL([c] + v)
    ensures IsURL(v) || (c == ':' && |v| >= 2 && v[0] == '/' && v[1] == '/')
  {
    var s := [c] + v;
    var i :| 0 <= i <= |s| - 3 && SchemeEnd(s, i);
    if i > 0 {
      assert SchemeEnd(v, i - 1);
    }
  }

  lemma {:induction false} DoubleURL(v: string)
    ensures IsURL(Double(v)) ==> IsURL(v)
    ensures Double(v) != "" ==> v != "" && Double(v)[0] == v[0]
    ensures |Double(v)| >= 2 && Double(v)[0] == Double(v)[1] == '/' ==> |v| >= 2 && v[0] == v[1] == '/'
  {
    if v != "" {
      DoubleURL(v[1..]);
      assert v == [v[0]] + v[1..];
      if IsURL(Double(v)) {
        if v[0] == '\'' {
          assert Double(v) == ['\''] + (['\''] + Double(v[1..]));
          ConsURL('\'', ['\''] + Double(v[1..]));
          ConsURL('\'', Double(v[1..]));
          TailURL(v[0], v[1..]);
        } else {
          ConsURL(v[0], Double(v[1..]));
          if IsURL(Double(v[1..])) {
            TailURL(v[0], v[1..]);
          } else {
            assert SchemeEnd(v, 0);
          }
        }
      }
    }
  }

  /** Gluing pieces with a character that is no part of "://" makes no new one. */
  lemma GlueURL(a: string, c: char, b: string)
    requires IsURL(a + [c] + b) && c != ':' && c != '/'
    ensures IsURL(a) || IsURL(b)
  {
    var s := a + [c] + b;
    var i :| 0 <= i <= |s| - 3 && SchemeEnd(s, i);
    assert s[|a|] == c;
    if i + 2 < |a| {
      assert SchemeEnd(a, i);
    } else {
      assert SchemeEnd(b, i - |a| - 1);
    }
  }

  lemma QuotedURL(v: string)
    requires IsURL(Quoted(v))
    ensures IsURL(v)
  {
    var d := Double(v);
    assert Quoted(v) == [] + ['\''] + (d + ['\''] + []);
    GlueURL([], '\'', d + ['\''] + []);
    GlueURL(d, '\'', []);
    DoubleURL(v);
  }

  lemma QuoteURL(v: string)
    requires IsURL(Quote(v))
    ensures IsURL(v)
  {
    if NeedsQuote(v) {
      QuotedURL(v);
    }
  }

  lemma PartURL(k: string, v: string)
    requires IsURL(Part(k, v))
    ensures IsURL(k) || IsURL(v)
  {
    GlueURL(k, '=', Quote(v));
    if IsURL(Quote(v)) {
      QuoteURL(v);
    }
  }

  lemma {:induction false} JoinURL(parts: seq<string>) returns (i: nat)
    requires IsURL(Join(parts))
    ensures i < |parts| && IsURL(parts[i])
    decreases |parts|
  {
    if |parts| == 1 || IsURL(parts[0]) {
      i := 0;
    } else {
      GlueURL(parts[0], ' ', Join(parts[1..]));
      var j := JoinURL(parts[1..]);
      i := j + 1;
    }
  }

  lemma PrintIsNoURL(m: map<string, string>, keys: seq<string>)
    requires IsOrder(m, keys) && NoURLs(m)
    ensures !IsURL(Print(m, keys))
  {
    if IsURL(Print(m, keys)) {
      var i := JoinURL(Parts(m, keys));
      PartURL(keys[i], m[keys[i]]);
      assert false;
    }
  }

  /** Parsing what was printed, in any key order, gives the map back with every value as
      it survives. */
  lemma PrintThenParse(m: map<string, string>, keys: seq<string>, fromURL: string -> Option<string>)
    requires CleanKeys(m) && NoURLs(m) && IsOrder(m, keys)
    ensures Parse(Print(m, keys), fromURL) == Some(Survivors(m))
  {
    PrintIsNoURL(m, keys);
    ReadsBack(m, keys);
  }

  /** The round trip is exact if and only if every unquoted value is free of white space
      at its edges. */
  lemma RoundTrip(m: map<string, string>, keys: seq<string>, fromURL: string -> Option<string>)
    requires CleanKeys(m) && NoURLs(m) && IsOrder(m, keys)
    ensures Parse(Print(m, keys), fromURL) == Some(m) <==> forall k | k in m :: NeedsQuote(m[k]) || NoEdgeSpace(m[k])
  {
    PrintThenParse(m, keys, fromURL);
    forall k | k in m ensures Survivor(m[k]) == m[k] <==> NeedsQuote(m[k]) || NoEdgeSpace(m[k]) {
      TrimSpaceTrims(m[k]);
    }
    assert Survivors(m) == m <==> forall k | k in m :: Survivors(m)[k] == m[k];
  }

  // What the text looks like, and what parsing makes of any text.

  /** A value is written between quotes, each quote in it doubled, if and only if it holds a
      blank, a quote or a backslash; any other goes in as it is. */
  lemma QuotedExactlyWhen(k: string, v: string)
    ensures Print(map[k := v], [k]) ==
      if ' ' in v || '\'' in v || '\\' in v then k + "='" + Double(v) + "'" else k + "=" + v
    ensures Part(k, v) == Print(map[k := v], [k])
  {
    hide Double;
    assert Parts(map[k := v], [k]) == [Part(k, v)];
    assert k + "=" + ("'" + Double(v) + "'") == k + "='" + Double(v) + "'";
  }

  /** Doubling keeps every character but the quotes, which come in pairs. */
  lemma {:induction false} DoubleIs(a: string, b: string)
    ensures Double(a + b) == Double(a) + Double(b)
    ensures '\'' !in a ==> Double(a) == a
    ensures Double("'") == "\'\'"
  {
    assert "'"[1..] == "";
    if a == "" {
      assert a + b == b;
    } else {
      DoubleIs(a[1..], b);
      assert (a + b)[0] == a[0] && (a + b)[1..] == a[1..] + b;
      assert Double(a + b) == (if a[0] == '\'' then "''" else [a[0]]) + (Double(a[1..]) + Double(b));
      assert a[0] in a && forall c :: c in a[1..] ==> c in a;
      assert a == [a[0]] + a[1..];
    }
  }

  /** Text parses exactly when each of its fields has an equals sign. */
  lemma {:induction false} ParsesExactlyWhen(fields: seq<string>, kv: map<string, string>)
    ensures Collect(fields, kv).Some? <==> forall i | 0 <= i < |fields| :: '=' in fields[i]
    decreases |fields|
  {
    if fields != [] {
      var f := fields[0];
      HasEquals(f);
      if Field(f).Some? {
        ParsesExactlyWhen(fields[1..], kv[Field(f).value.0 := Field(f).value.1]);
        assert forall i | 0 < i < |fields| :: fields[i] == fields[1..][i - 1];
      }
    }
  }

  lemma HasEquals(f: string)
    ensures Field(f).Some? <==> '=' in f
  {
    if i :| 0 <= i < |f| && f[i] == '=' {
      assert Equals(f) <= i;
    }
  }

  /** The last field of a key gives its value, and no other key is touched by it. */
  lemma {:induction false} LastFieldWins(fields: seq<string>, last: string, kv: map<string, string>)
    requires Collect(fields, kv).Some? && Field(last).Some?
    ensures Collect(fields + [last], kv) ==
      Some(Collect(fields, kv).value[Field(last).value.0 := Field(last).value.1])
    decreases |fields|
  {
    if fields == [] {
      assert fields + [last] == [last] && [last][1..] == [];
      assert Collect([], kv[Field(last).value.0 := Field(last).value.1]) == Some(kv[Field(last).value.0 := Field(last).value.1]);
    } else {
      var p := Field(fields[0]).value;
      LastFieldWins(fields[1..], last, kv[p.0 := p.1]);
      assert (fields + [last])[0] == fields[0] && (fields + [last])[1..] == fields[1..] + [last];
    }
  }

  // pgAdminDSN.

  /** The settings with the maintenance database in place of the named one. */
  function Admin(kv: map<string, string>): map<string, string> {
    (kv - {"dbname", "database"})["dbname" := "postgres"]
  }

  lemma PartsGrow(m: map<string, string>, keys: seq<string>, k: string)
    requires k in m && forall x :: x in keys ==> x in m
    ensures Parts(m, keys + [k]) == Parts(m, keys) + [Part(k, m[k])]
  {
  }

  /** The printing loop over the map, in any order; keys is the order met. */
  method PrintParts(kv: map<string, string>) returns (parts: seq<string>, ghost keys: seq<string>)
    ensures IsOrder(kv, keys) && parts == Parts(kv, keys)
  {
    hide Parts, NeedsQuote, Double;
    parts, keys := [], [];
    assert Parts(kv, keys) == [];
    var todo := kv.Keys;
    while todo != {}
      invariant todo <= kv.Keys
      invariant forall k :: k in keys <==> k in kv && k !in todo
      invariant forall i, j :: 0 <= i < j < |keys| ==> keys[i] != keys[j]
      invariant parts == Parts(kv, keys)
      decreases todo
    {
      var k :| k in todo;
      var v := kv[k];
      if NeedsQuote(v) {
        v := "'" + Double(v) + "'";
      }
      PartsGrow(kv, keys, k);
      parts := parts + [k + "=" + v];
      keys := keys + [k];
      todo := todo - {k};
    }
  }

  method PgAdminDSN(dsn: string, fromURL: string -> Option<string>) returns (out: Option<string>, ghost keys: seq<string>)
    ensures out == None <==> Parse(dsn, fromURL) == None
    ensures out.Some? ==>
      var kv := Admin(Parse(dsn, fromURL).value);
      IsOrder(kv, keys) && out.value == Print(kv, keys)
  {
    hide Parse, Parts, IsOrder;
    keys := [];
    var parsed := ParsePostgresKV(dsn, fromURL);
    if parsed == None {
      return None, [];
    }
    var kv := parsed.value;
    kv := kv - {"dbname"};
    kv := kv - {"database"};
    kv := kv["dbname" := "postgres"];
    assert kv == Admin(parsed.value);
    var parts;
    parts, keys := PrintParts(kv);
    return Some(Join(parts)), keys;
  }

  /** pgDatabaseName: dbname when it is not blank, database otherwise. */
  function DatabaseName(kv: map<string, string>): string {
    if "dbname" in kv && kv["dbname"] != "" then kv["dbname"]
    else if "database" in kv then kv["database"] else ""
  }

  lemma PostgresIsPlain()
    ensures CleanKey("dbname") && !IsURL("dbname") && !IsURL("postgres")
    ensures Survivor("postgres") == "postgres"
  {
    TrimSpaceTrims("postgres");
  }

  lemma AdminClean(kv: map<string, string>)
    requires CleanKeys(kv) && NoURLs(kv)
    ensures CleanKeys(Admin(kv)) && NoURLs(Admin(kv))
  {
    PostgresIsPlain();
    forall k | k in Admin(kv) ensures CleanKey(k) && !IsURL(k) && !IsURL(Admin(kv)[k]) {
      if k != "dbname" {
        assert k in kv;
      }
    }
  }

  /** The maintenance connection string names the maintenance database, and keeps every
      other setting. */
  lemma AdminNamesPostgres(kv: map<string, string>, keys: seq<string>, fromURL: string -> Option<string>)
    requires CleanKeys(kv) && NoURLs(kv) && IsOrder(Admin(kv), keys)
    ensures Parse(Print(Admin(kv), keys), fromURL) == Some(Survivors(Admin(kv)))
    ensures DatabaseName(Survivors(Admin(kv))) == "postgres"
    ensures forall k | k !in {"dbname", "database"} ::
      && (k in Survivors(Admin(kv)) <==> k in kv)
      && (k in kv ==> Survivors(Admin(kv))[k] == Survivor(kv[k]))
  {
    AdminClean(kv);
    PrintThenParse(Admin(kv), keys, fromURL);
    PostgresIsPlain();
  }

  /** One setting written with quotes around its value, needed or not, parses to the value
      as it is. */
  lemma QuotedParses(k: string, v: string, fromURL: string -> Option<string>)
    requires CleanKey(k) && !IsURL(k) && !IsURL(v)
    ensures Parse(k + "=" + Quoted(v), fromURL) == Some(map[k := v])
  {
    var dsn := k + "=" + Quoted(v);
    if IsURL(dsn) {
      GlueURL(k, '=', Quoted(v));
      QuotedURL(v);
    }
    QuotedSolid(v);
    SettingSolid(k, Quoted(v));
    SplitJoin([dsn]);
    EqualsAt(k, Quoted(v));
    TrimSpaceTrims(k);
    QuotedComesBack(v);
    assert dsn[..|k|] == k && dsn[|k| + 1..] == Quoted(v);
    CollectOne(dsn, k, v);
  }

  lemma CollectOne(field: string, k: string, v: string)
    requires Field(field) == Some((k, v))
    ensures Collect([field], map[]) == Some(map[k := v])
  {
    var fields, start: map<string, string> := [field], map[];
    assert |fields[1..]| == 0 && start[k := v] == map[k := v];
  }

  lemma AdminOfOne(k: string, v: string)
    requires k !in {"dbname", "database"}
    ensures Survivors(Admin(map[k := v])) == map[k := Survivor(v), "dbname" := "postgres"]
    ensures Admin(map[k := v]) == map[k := v, "dbname" := "postgres"]
  {
    PostgresIsPlain();
  }

  /** From connection string to connection string: a quoted setting other than the
      database keeps its value in the administrative string if and only if the value needs
      its quotes or has no white space at its edges. */
  lemma QuotedKeptExactlyWhen(k: string, v: string, keys: seq<string>, fromURL: string -> Option<string>)
    requires CleanKey(k) && !IsURL(k) && !IsURL(v) && k !in {"dbname", "database"}
    requires IsOrder(Admin(map[k := v]), keys)
    ensures Parse(k + "=" + Quoted(v), fromURL) == Some(map[k := v])
    ensures Parse(Print(Admin(map[k := v]), keys), fromURL) == Some(map[k := Survivor(v), "dbname" := "postgres"])
    ensures Survivor(v) == v <==> NeedsQuote(v) || NoEdgeSpace(v)
  {
    hide Parse, Print, IsOrder, NeedsQuote, Double, IsURL, Admin, Survivors, NoEdgeSpace;
    QuotedParses(k, v, fromURL);
    OneClean(k, v);
    AdminClean(map[k := v]);
    PrintThenParse(Admin(map[k := v]), keys, fromURL);
    AdminOfOne(k, v);
    TrimSpaceTrims(v);
  }

  lemma OneClean(k: string, v: string)
    requires CleanKey(k) && !IsURL(k) && !IsURL(v)
    ensures CleanKeys(map[k := v]) && NoURLs(map[k := v])
  {
  }

  /** The string password='<tab>x' names the password <tab>x; the administrative string made
      of it is password=<tab>x dbname=postgres, or the other way round, and names x. */
  lemma EdgeTabIsLost(keys: seq<string>, fromURL: string -> Option<string>)
    requires IsOrder(Admin(map["password" := "\tx"]), keys)
    ensures Parse("password='\tx'", fromURL) == Some(map["password" := "\tx"])
    ensures keys == ["password", "dbname"] ==> Print(Admin(map["password" := "\tx"]), keys) == "password=\tx dbname=postgres"
    ensures Parse(Print(Admin(map["password" := "\tx"]), keys), fromURL) == Some(map["password" := "x", "dbname" := "postgres"])
  {
    hide Parse, Print, IsOrder, NeedsQuote, Double, IsURL, Admin, Survivor, CleanKey, Quoted;
    QuotedTab();
    PasswordClean();
    QuotedKeptExactlyWhen("password", "\tx", keys, fromURL);
    AdminOfOne("password", "\tx");
    TabTrimmed();
    PlainTab();
    PlainName();
    TwoParts("password", "\tx", "dbname", "postgres");
    assert "password=\tx" + " " + "dbname=postgres" == "password=\tx dbname=postgres";
  }

  lemma QuotedTab()
    ensures "password" + "=" + Quoted("\tx") == "password='\tx'"
  {
    assert "\tx"[1..] == "x" && "x"[1..] == "";
    assert Double("") == "" && Double("x") == "x" && Double("\tx") == "\tx";
    assert Quoted("\tx") == "'\tx'";
  }

  lemma PasswordClean()
    ensures CleanKey("password") && !IsURL("password") && !IsURL("\tx")
  {
  }

  lemma TabTrimmed()
    ensures Survivor("\tx") == "x"
  {
    var v := "\tx";
    assert forall i | 0 <= i < |v| :: v[i] != ' ' && v[i] != '\'' && v[i] != '\\';
    assert !NeedsQuote(v);
    assert IsSpace(v[0]) && !IsSpace(v[1]);
    assert Lead(v, 1) == 1;
    assert Lead(v, 0) == 1 && Trail(v, 1, 2) == 2;
    assert v[1..2] == "x";
  }

  lemma PlainTab()
    ensures Part("password", "\tx") == "password=\tx"
  {
    var v := "\tx";
    assert forall i | 0 <= i < |v| :: v[i] != ' ' && v[i] != '\'' && v[i] != '\\';
    assert Quote(v) == v;
    assert "password" + "=" + "\tx" == "password=\tx";
  }

  lemma PlainName()
    ensures Part("dbname", "postgres") == "dbname=postgres"
  {
    var w := "postgres";
    assert forall i | 0 <= i < |w| :: w[i] != ' ' && w[i] != '\'' && w[i] != '\\';
    assert Quote(w) == w;
  }

  lemma TwoParts(k: string, v: string, l: string, w: string)
    requires k != l
    ensures Print(map[k := v, l := w], [k, l]) == Part(k, v) + " " + Part(l, w)
  {
    var parts := Parts(map[k := v, l := w], [k, l]);
    hide Part;
    assert parts == [Part(k, v), Part(l, w)];
    var rest := parts[1..];
    assert rest == [Part(l, w)] && Join(rest) == Part(l, w);
    assert Join(parts) == parts[0] + " " + Join(rest);
    assert Print(map[k := v, l := w], [k, l]) == Join(parts);
  }
}
