/** What the validator and the scheduler read off a readiness address
    (internal/config/validate.go, internal/scheduler/procresolve.go): its origin as text and
    its port as a number.  Percent escapes and characters no host may hold are not read. */
module Url {
  import opened Config
  import opened Text

  const MAX_INT := 0x7FFF_FFFF_FFFF_FFFF

  /** The first index of c, |s| if there is none. */
  function Find(s: string, c: char): (i: nat)
    ensures i <= |s| && (i < |s| ==> s[i] == c) && c !in s[..i]
  {
    if s == "" || s[0] == c then 0
    else
      assert s[..1 + Find(s[1..], c)] == [s[0]] + s[1..][..Find(s[1..], c)];
      1 + Find(s[1..], c)
  }

  /** The last one, |s| if there is none. */
  function FindLast(s: string, c: char): (i: nat)
    ensures i <= |s| && (i < |s| ==> s[i] == c && c !in s[i + 1..]) && (i == |s| <==> c !in s)
  {
    if s == "" then 0
    else
      var rest := FindLast(s[1..], c);
      if rest < |s| - 1 then 1 + rest else if s[0] == c then 0 else |s|
  }

  predicate EndsHost(c: char) { c == '/' || c == '?' || c == '#' }

  /** Where path, query or fragment begin. */
  function End(s: string): (i: nat)
    ensures i <= |s|
  {
    if s == "" || EndsHost(s[0]) then 0 else 1 + End(s[1..])
  }

  predicate Digits(s: string) { forall i | 0 <= i < |s| :: '0' <= s[i] <= '9' }

  function Number(s: string): nat
    requires Digits(s)
  {
    if s == "" then 0 else 10 * Number(s[..|s| - 1]) + (s[|s| - 1] as int - '0' as int)
  }

  predicate Letter(c: char) { 'a' <= c <= 'z' || 'A' <= c <= 'Z' }

  predicate SchemeText(s: string) {
    && s != "" && Letter(s[0])
    && forall i | 0 <= i < |s| :: Letter(s[i]) || '0' <= s[i] <= '9' || s[i] == '+' || s[i] == '-' || s[i] == '.'
  }

  function LowerChar(c: char): char { if 'A' <= c <= 'Z' then (c as int + 32) as char else c }

  function Lower(s: string): (t: string)
    ensures |t| == |s| && forall i | 0 <= i < |s| :: t[i] == LowerChar(s[i])
  {
    seq(|s|, i requires 0 <= i < |s| => LowerChar(s[i]))
  }

  /** The scheme in lower case, "" when there is none. */
  function SchemeOf(raw: string): string {
    var i := Find(raw, ':');
    if i < |raw| && SchemeText(raw[..i]) then Lower(raw[..i]) else ""
  }

  /** A port, if there is one, is a number. */
  predicate PortText(s: string) { s == "" || (s[0] == ':' && Digits(s[1..])) }

  /** url.Parse's check of host and port; "" when it fails. */
  function Checked(host: string): string {
    if host != "" && host[0] == '[' then
      var close := FindLast(host, ']');
      if close < |host| && PortText(host[close + 1..]) then host else ""
    else
      if PortText(host[FindLast(host, ':')..]) then host else ""
  }

  /** url.Parse's Host: what follows "//", without user information. */
  function HostOf(raw: string): string {
    var rest := if SchemeOf(raw) == "" then raw else raw[Find(raw, ':') + 1..];
    if |rest| < 2 || rest[..2] != "//" then ""
    else
      var authority := rest[2..][..End(rest[2..])];
      var at := FindLast(authority, '@');
      Checked(if at < |authority| then authority[at + 1..] else authority)
  }

  /** originOf. */
  function OriginOf(raw: string): string {
    if SchemeOf(raw) == "" || HostOf(raw) == "" then "" else SchemeOf(raw) + "://" + HostOf(raw)
  }

  /** net.SplitHostPort's port; None when it refuses. */
  function SplitPort(host: string): Option<string> {
    var colon := FindLast(host, ':');
    if colon == |host| then None
    else if host[0] == '[' then
      if Find(host, ']') + 1 != colon || '[' in host[1..] || ']' in host[colon..] then None else Some(host[colon + 1..])
    else if ':' in host[..colon] || '[' in host || ']' in host then None
    else Some(host[colon + 1..])
  }

  /** readinessPort. */
  function PortOf(raw: string): nat {
    match SplitPort(HostOf(raw))
    case None => 0
    case Some(text) => if text == "" || !Digits(text) || Number(text) > MAX_INT then 0 else Number(text)
  }

  /** None of these ends a host or separates its parts. */
  predicate Plain(c: char) {
    c != ':' && c != '@' && c != '[' && c != ']' && !EndsHost(c)
  }

  /** scheme://user@host:port and whatever follows.  user is "" or ends with its '@'; an
      IPv6 host stands in brackets; tail begins a path, a query or a fragment. */
  datatype Address = Address(scheme: string, user: string, host: string, port: string, tail: string) {
    ghost predicate Bracketed() {
      && |host| >= 2 && host[0] == '[' && host[|host| - 1] == ']'
      && forall i | 0 < i < |host| - 1 :: Plain(host[i]) || host[i] == ':'
    }

    ghost predicate Valid() {
      && SchemeText(scheme)
      && (user == "" || user[|user| - 1] == '@') && (forall i | 0 <= i < |user| :: !EndsHost(user[i]))
      && (Bracketed() || (host != "" && forall i | 0 <= i < |host| :: Plain(host[i])))
      && port != "" && Digits(port)
      && (tail == "" || EndsHost(tail[0]))
    }

    function Authority(): string { host + (":" + port) }

    function Printed(): string { scheme + ("://" + ((user + Authority()) + tail)) }
  }

  lemma Cut(p: string, x: string)
    ensures (p + x)[..|p|] == p && (p + x)[|p|..] == x
  {
  }

  lemma {:induction false} FindAfter(p: string, rest: string, c: char)
    requires c !in p && (rest == "" || rest[0] == c)
    ensures Find(p + rest, c) == |p|
    decreases |p|
  {
    if p == "" {
      assert p + rest == rest;
    } else {
      assert (p + rest)[0] == p[0] && (p + rest)[1..] == p[1..] + rest;
      FindAfter(p[1..], rest, c);
    }
  }

  lemma {:induction false} FindLastAfter(p: string, rest: string, c: char)
    requires rest != "" && rest[0] == c && c !in rest[1..]
    ensures FindLast(p + rest, c) == |p|
    decreases |p|
  {
    if p == "" {
      assert p + rest == rest;
    } else {
      assert (p + rest)[0] == p[0] && (p + rest)[1..] == p[1..] + rest;
      FindLastAfter(p[1..], rest, c);
    }
  }

  lemma {:induction false} EndAfter(p: string, tail: string)
    requires (forall i | 0 <= i < |p| :: !EndsHost(p[i])) && (tail == "" || EndsHost(tail[0]))
    ensures End(p + tail) == |p|
    decreases |p|
  {
    if p == "" {
      assert p + tail == tail;
    } else {
      assert (p + tail)[0] == p[0] && (p + tail)[1..] == p[1..] + tail;
      EndAfter(p[1..], tail);
    }
  }

  /** Neither scheme nor port holds a separator. */
  lemma PartsPlain(a: Address)
    requires a.Valid()
    ensures ':' !in a.scheme && ':' !in Lower(a.scheme) && Lower(a.scheme) != ""
    ensures ':' !in a.port && '@' !in a.port && '[' !in a.port && ']' !in a.port
    ensures a.Authority() != "" && (":" + a.port)[1..] == a.port
    ensures forall i | 0 <= i < |a.Authority()| :: !EndsHost(a.Authority()[i]) && a.Authority()[i] != '@'
  {
  }

  lemma SchemeCut(scheme: string, rest: string)
    requires SchemeText(scheme)
    ensures var raw := scheme + ("://" + rest);
      && Find(raw, ':') == |scheme| && SchemeOf(raw) == Lower(scheme) && SchemeOf(raw) != ""
      && raw[|scheme| + 1..] == "//" + rest
  {
    var raw := scheme + ("://" + rest);
    assert ':' !in scheme;
    FindAfter(scheme, "://" + rest, ':');
    Cut(scheme, "://" + rest);
    assert ("://" + rest)[1..] == "//" + rest;
  }

  lemma UserCut(a: Address)
    requires a.Valid()
    ensures var s := a.user + a.Authority();
      var at := FindLast(s, '@');
      (if at < |s| then s[at + 1..] else s) == a.Authority()
  {
    var s := a.user + a.Authority();
    PartsPlain(a);
    if a.user == "" {
      assert s == a.Authority();
    } else {
      var name, rest := a.user[..|a.user| - 1], "@" + a.Authority();
      assert s == name + rest && rest[1..] == a.Authority();
      FindLastAfter(name, rest, '@');
    }
  }

  /** Host and port pass url.Parse's check. */
  lemma AuthorityChecked(a: Address)
    requires a.Valid()
    ensures Checked(a.Authority()) == a.Authority()
  {
    PartsPlain(a);
    if a.Bracketed() {
      BracketChecked(a.host[..|a.host| - 1], a.port);
      assert a.host == a.host[..|a.host| - 1] + "]";
    } else {
      PlainChecked(a.host, a.port);
    }
  }

  lemma BracketChecked(front: string, port: string)
    requires front != "" && front[0] == '[' && Digits(port) && ']' !in port
    ensures Checked((front + "]") + (":" + port)) == (front + "]") + (":" + port)
  {
    hide FindLast;
    var s, rest := (front + "]") + (":" + port), "]" + (":" + port);
    assert s == front + rest && rest[1..] == ":" + port;
    FindLastAfter(front, rest, ']');
    assert s[|front| + 1..] == ":" + port && (":" + port)[1..] == port;
  }

  lemma PlainChecked(host: string, port: string)
    requires host != "" && host[0] != '[' && Digits(port) && ':' !in port
    ensures Checked(host + (":" + port)) == host + (":" + port)
  {
    hide FindLast;
    assert (":" + port)[1..] == port;
    FindLastAfter(host, ":" + port, ':');
    Cut(host, ":" + port);
  }

  lemma HostBehind(raw: string, rest: string)
    requires SchemeOf(raw) != "" && raw[Find(raw, ':') + 1..] == "//" + rest
    ensures HostOf(raw) ==
      var authority := rest[..End(rest)];
      var at := FindLast(authority, '@');
      Checked(if at < |authority| then authority[at + 1..] else authority)
  {
    hide Checked, FindLast, End, Find;
    Cut("//", rest);
  }

  lemma PrintedHost(a: Address)
    requires a.Valid()
    ensures SchemeOf(a.Printed()) == Lower(a.scheme) && HostOf(a.Printed()) == a.Authority()
  {
    hide Find, FindLast, SchemeText, Checked, Lower, SchemeOf, HostOf, End;
    var all := a.user + a.Authority();
    PartsPlain(a);
    SchemeCut(a.scheme, all + a.tail);
    HostBehind(a.Printed(), all + a.tail);
    assert forall i | 0 <= i < |all| :: !EndsHost(all[i]);
    EndAfter(all, a.tail);
    Cut(all, a.tail);
    UserCut(a);
    AuthorityChecked(a);
  }

  lemma PlainSplit(host: string, port: string)
    requires host != "" && (forall i | 0 <= i < |host| :: Plain(host[i])) && ':' !in port && '[' !in port && ']' !in port
    ensures SplitPort(host + (":" + port)) == Some(port)
  {
    hide FindLast, Find;
    var s := host + (":" + port);
    FindLastAfter(host, ":" + port, ':');
    Cut(host, ":" + port);
    Cut(host + ":", port);
    assert s == (host + ":") + port;
    assert forall i | 0 <= i < |s| :: s[i] != '[' && s[i] != ']';
  }

  lemma BracketSplit(inner: string, port: string)
    requires (forall i | 0 <= i < |inner| :: Plain(inner[i]) || inner[i] == ':') && ':' !in port && '[' !in port && ']' !in port
    ensures SplitPort(("[" + inner + "]") + (":" + port)) == Some(port)
  {
    hide SplitPort, FindLast, Find, Plain;
    var host, rest, front := "[" + inner + "]", ":" + port, "[" + inner;
    NoBrackets(inner);
    ColonFree(port);
    FindLastAfter(host, rest, ':');
    FindAfter(front, "]" + rest, ']');
    BracketParts(inner, rest);
    SplitFrom(host + rest, |host|, port);
  }

  lemma ColonFree(port: string)
    requires ':' !in port && '[' !in port && ']' !in port
    ensures var rest := ":" + port; rest[1..] == port && ':' !in rest[1..] && '[' !in rest && ']' !in rest
  {
  }

  lemma BracketParts(inner: string, rest: string)
    requires '[' !in inner && ']' !in inner && '[' !in rest && rest != "" && rest[0] == ':'
    ensures var s := ("[" + inner + "]") + rest;
      && s == ("[" + inner) + ("]" + rest) && s[0] == '[' && '[' !in s[1..] && ']' !in "[" + inner
      && s[|inner| + 2..] == rest && s[|inner| + 3..] == rest[1..]
  {
    var s := ("[" + inner + "]") + rest;
    assert s[1..] == inner + ("]" + rest);
  }

  lemma SplitFrom(s: string, i: nat, port: string)
    requires i == FindLast(s, ':') < |s| && s[0] == '[' && Find(s, ']') + 1 == i
    requires '[' !in s[1..] && ']' !in s[i..] && s[i + 1..] == port
    ensures SplitPort(s) == Some(port)
  {
  }

  lemma NoBrackets(inner: string)
    requires forall i | 0 <= i < |inner| :: Plain(inner[i]) || inner[i] == ':'
    ensures '[' !in inner && ']' !in inner
  {
  }

  lemma AuthoritySplit(a: Address)
    requires a.Valid()
    ensures SplitPort(a.Authority()) == Some(a.port)
  {
    hide SplitPort, Plain;
    PartsPlain(a);
    if a.Bracketed() {
      var inner := a.host[1..|a.host| - 1];
      assert a.host == "[" + inner + "]";
      assert forall i | 0 <= i < |inner| :: inner[i] == a.host[i + 1];
      BracketSplit(inner, a.port);
    } else {
      PlainSplit(a.host, a.port);
    }
  }

  /** The validator compares the text of scheme, host and port; the scheduler clears the
      number. */
  lemma ReadOff(a: Address)
    requires a.Valid()
    ensures OriginOf(a.Printed()) == Lower(a.scheme) + "://" + a.Authority()
    ensures PortOf(a.Printed()) == if Number(a.port) > MAX_INT then 0 else Number(a.port)
  {
    hide Number, HostOf, SchemeOf, SplitPort;
    PrintedHost(a);
    PartsPlain(a);
    AuthoritySplit(a);
  }

  lemma SplitAt(p: string, x: string, q: string, y: string, c: char)
    requires c !in p && c !in q && x != "" && y != "" && x[0] == c && y[0] == c
    requires p + x == q + y
    ensures p == q && x == y
  {
    FindAfter(p, x, c);
    FindAfter(q, y, c);
    Cut(p, x);
    Cut(q, y);
  }

  lemma AuthoritiesAgree(a: Address, b: Address)
    requires a.Valid() && b.Valid() && a.Authority() == b.Authority()
    ensures a.host == b.host && a.port == b.port
  {
    PartsPlain(a);
    PartsPlain(b);
    FindLastAfter(a.host, ":" + a.port, ':');
    FindLastAfter(b.host, ":" + b.port, ':');
    Cut(a.host, ":" + a.port);
    Cut(b.host, ":" + b.port);
  }

  /** Two addresses have one origin exactly when host and port are spelled alike, and the
      schemes but for their case, whatever user information and tails they carry. */
  lemma OriginsAgreeExactlyWhen(a: Address, b: Address)
    requires a.Valid() && b.Valid()
    ensures OriginOf(a.Printed()) == OriginOf(b.Printed()) <==>
      Lower(a.scheme) == Lower(b.scheme) && a.host == b.host && a.port == b.port
  {
    hide OriginOf, PortOf;
    ReadOff(a);
    ReadOff(b);
    PartsPlain(a);
    PartsPlain(b);
    if OriginOf(a.Printed()) == OriginOf(b.Printed()) {
      var x, y := "://" + a.Authority(), "://" + b.Authority();
      assert Lower(a.scheme) + x == Lower(a.scheme) + "://" + a.Authority();
      assert Lower(b.scheme) + y == Lower(b.scheme) + "://" + b.Authority();
      SplitAt(Lower(a.scheme), x, Lower(b.scheme), y, ':');
      Cut("://", a.Authority());
      Cut("://", b.Authority());
      AuthoritiesAgree(a, b);
    }
  }

  /** The entry's origin and port are those of its address. */
  ghost predicate Parsed(e: Process) {
    e.origin == OriginOf(e.readinessURL) && e.port == PortOf(e.readinessURL)
  }

  ghost predicate AllParsed(c: Scheduling) {
    forall id | id in c.models :: Parsed(c.models[id])
  }
}
