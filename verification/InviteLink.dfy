/** The invite link of protocol/invite.go: Invite.String and ParseInvite, with the part of
    net/url they exercise. Modelled links have the shape
    scheme://user@host:port/path?query#fragment with a host that needs no escaping and no
    brackets; the scheme may be in either case, user info, path, query and fragment may be
    percent-escaped, and the query may hold anything. SHA-256 is an arbitrary function. */
module InviteLink {
  import opened Ids
  import Base64Url

  const INVITE_VERSION := "v2"

  type Key = k: seq<Byte> | |k| == 32 witness seq(32, _ => 0)

  type Digest = d: seq<Byte> | |d| == 32 witness seq(32, _ => 0)

  datatype Invite = Invite(host: string, port: int, qid: string, boxPub: Key)

  // ---- decimal numbers ----

  predicate IsDecimal(c: char) { '0' <= c <= '9' }

  predicate AllDecimal(s: string) { forall i :: 0 <= i < |s| ==> IsDecimal(s[i]) }

  function Decimal(n: nat): (s: string)
    ensures |s| > 0 && AllDecimal(s)
  {
    if n < 10 then [(48 + n) as char] else Decimal(n / 10) + [(48 + n % 10) as char]
  }

  /** %d. */
  function Itoa(n: int): string {
    if n < 0 then "-" + Decimal(-n) else Decimal(n)
  }

  function NumberOf(s: string): nat
    requires AllDecimal(s)
  {
    if s == [] then 0 else NumberOf(s[..|s| - 1]) * 10 + (s[|s| - 1] as int - 48)
  }

  lemma {:induction false} NumberOfDecimal(n: nat)
    ensures NumberOf(Decimal(n)) == n
  {
    if n >= 10 {
      NumberOfDecimal(n / 10);
      assert Decimal(n)[..|Decimal(n)| - 1] == Decimal(n / 10);
    } else {
      assert Decimal(n)[..0] == [];
    }
  }

  /** n without its last k decimal digits. */
  function Cut10(n: nat, k: nat): nat {
    if k == 0 then n else Cut10(n / 10, k - 1)
  }

  /** The decimal digits of a number, lowest last, without leading zeros. */
  lemma {:induction false} DecimalDigits(n: nat, k: nat)
    requires k < |Decimal(n)|
    ensures Decimal(n)[|Decimal(n)| - 1 - k] as int == '0' as int + Cut10(n, k) % 10
    ensures Cut10(n, |Decimal(n)|) == 0 && (n > 0 ==> Decimal(n)[0] != '0')
    decreases n
  {
    if n >= 10 { DecimalDigits(n / 10, if k > 0 then k - 1 else 0); }
  }

  lemma {:induction false} LeadingZero(s: string)
    requires AllDecimal(s)
    ensures NumberOf("0" + s) == NumberOf(s)
  {
    if s == [] {
      assert ("0" + s)[..0] == [];
    } else {
      LeadingZero(s[..|s| - 1]);
      assert ("0" + s)[..|s|] == "0" + s[..|s| - 1];
    }
  }

  // ---- splitting ----

  /** The first position of c, or the length. */
  function Index(s: string, c: char): (i: nat)
    ensures i <= |s| && (i < |s| ==> s[i] == c) && forall j :: 0 <= j < i ==> s[j] != c
  {
    if s == [] || s[0] == c then 0 else 1 + Index(s[1..], c)
  }

  lemma IndexOf(a: string, c: char, b: string)
    requires c !in a
    ensures Index(a + [c] + b, c) == |a|
  {
    var s := a + [c] + b;
    assert forall j :: 0 <= j < |a| ==> s[j] == a[j] && a[j] in a;
    assert s[|a|] == c;
  }

  lemma NoIndex(s: string, c: char)
    requires c !in s
    ensures Index(s, c) == |s|
  {
  }

  function Before(s: string, c: char): string { s[..Index(s, c)] }

  function After(s: string, c: char): string {
    if Index(s, c) < |s| then s[Index(s, c) + 1..] else ""
  }

  lemma CutAt(a: string, c: char, b: string)
    requires c !in a
    ensures Before(a + [c] + b, c) == a && After(a + [c] + b, c) == b && Index(a + [c] + b, c) == |a|
  {
    IndexOf(a, c, b);
  }

  // ---- percent escapes ----

  predicate Unreserved(c: char) {
    'a' <= c <= 'z' || 'A' <= c <= 'Z' || '0' <= c <= '9' || c == '-' || c == '_' || c == '.' || c == '~'
  }

  /** Characters net/url leaves alone in a path. */
  predicate PathPlain(c: char) {
    Unreserved(c) || c == '$' || c == '&' || c == '+' || c == ',' || c == '/'
    || c == ':' || c == ';' || c == '=' || c == '@'
  }

  /** Characters net/url leaves alone in a host, but for the colon and the brackets. */
  predicate HostPlain(c: char) {
    Unreserved(c) || c == '!' || c == '$' || c == '&' || c == '\'' || c == '(' || c == ')' || c == '*' || c == '+'
    || c == ',' || c == ';' || c == '=' || c == '<' || c == '>' || c == '"'
  }

  predicate PlainHost(s: string) { forall i :: 0 <= i < |s| ==> HostPlain(s[i]) }

  function UpperHex(n: int): (c: char)
    requires 0 <= n < 16
    ensures IsHex(c) && HexValue(c) == n && Unreserved(c)
  {
    if n < 10 then (n + 48) as char else (n + 55) as char
  }

  /** Strings stand for bytes, so every character is one. */
  predicate Bytes(s: string) { forall i :: 0 <= i < |s| ==> s[i] as int < 256 }

  function EscapePath(s: string): string
    requires Bytes(s)
  {
    if s == [] then []
    else
      (if PathPlain(s[0]) then [s[0]] else ['%', UpperHex(s[0] as int / 16), UpperHex(s[0] as int % 16)])
      + EscapePath(s[1..])
  }

  /** plus: in a query, '+' is a space. */
  function Unescape(s: string, plus: bool): Option<string> {
    if s == [] then Some([])
    else if s[0] == '%' then
      if |s| < 3 || !IsHex(s[1]) || !IsHex(s[2]) then None
      else
        match Unescape(s[3..], plus)
        case None => None
        case Some(rest) => Some([(16 * HexValue(s[1]) + HexValue(s[2])) as char] + rest)
    else
      match Unescape(s[1..], plus)
      case None => None
      case Some(rest) => Some([if plus && s[0] == '+' then ' ' else s[0]] + rest)
  }

  lemma {:induction false} UnescapePath(s: string)
    requires Bytes(s)
    ensures Unescape(EscapePath(s), false) == Some(s)
  {
    if s != [] {
      UnescapePath(s[1..]);
      assert s == [s[0]] + s[1..];
      var e := EscapePath(s);
      if PathPlain(s[0]) {
        assert e[1..] == EscapePath(s[1..]);
      } else {
        assert e[0] == '%' && e[3..] == EscapePath(s[1..]);
      }
    }
  }

  lemma {:induction false} EscapePathIsClean(s: string)
    requires Bytes(s)
    ensures forall i :: 0 <= i < |EscapePath(s)| ==> PathPlain(EscapePath(s)[i]) || EscapePath(s)[i] == '%'
  {
    if s != [] { EscapePathIsClean(s[1..]); }
  }

  lemma {:induction false} UnescapePlain(s: string, plus: bool)
    requires forall i :: 0 <= i < |s| ==> s[i] != '%' && s[i] != '+'
    ensures Unescape(s, plus) == Some(s)
  {
    if s != [] { UnescapePlain(s[1..], plus); assert s == [s[0]] + s[1..]; }
  }

  // ---- query ----

  /** The pair an '&'-separated part stands for; a bad part is skipped. */
  function Pair(part: string): Option<(string, string)> {
    if ';' in part || part == "" then None
    else
      match (Unescape(Before(part, '='), true), Unescape(After(part, '='), true))
      case (Some(k), Some(v)) => Some((k, v))
      case _ => None
  }

  /** url.Values.Get: the first value under the name, or the empty string. */
  function Get(query: string, name: string): string
    decreases |query|
  {
    if query == "" then ""
    else
      match Pair(Before(query, '&'))
      case Some((k, v)) => if k == name then v else Get(After(query, '&'), name)
      case None => Get(After(query, '&'), name)
  }

  // ---- printing ----

  /** knock|host|port|qid|key, hashed, the first four bytes in hex. */
  function Checksum(sha: string -> Digest, host: string, port: int, qid: string, keyText: string): (s: string)
    ensures |s| == 8 && forall i :: 0 <= i < |s| ==> IsLowerHex(s[i])
  {
    HexEncode(sha("knock|" + host + "|" + Itoa(port) + "|" + qid + "|" + keyText)[..4])
  }

  function Path(qid: string): string { "/" + INVITE_VERSION + "/" + qid }

  function Query(keyText: string, sum: string): string {
    "k=" + keyText + "&c=" + sum
  }

  /** The link with the key spelled keyText. */
  function Link(sha: string -> Digest, i: Invite, keyText: string): string
    requires Bytes(i.qid)
  {
    "knock://" + i.host + ":" + Itoa(i.port) + EscapePath(Path(i.qid)) + "?"
    + Query(keyText, Checksum(sha, i.host, i.port, i.qid, keyText))
  }

  /** Invite.String, for a host that needs no escaping. */
  function Print(sha: string -> Digest, i: Invite): string
    requires PlainHost(i.host) && Bytes(i.qid)
  {
    Link(sha, i, Base64Url.Encode(i.boxPub))
  }

  // ---- parsing ----

  datatype Url = Url(host: string, port: Option<string>, path: string, query: string)

  function Lower(c: char): char {
    if 'A' <= c <= 'Z' then (c as int + 32) as char else c
  }

  predicate IsKnock(s: string) {
    && |s| >= 8 && Lower(s[0]) == 'k'
    && Lower(s[1]) == 'n' && Lower(s[2]) == 'o' && Lower(s[3]) == 'c' && Lower(s[4]) == 'k'
    && s[5..8] == "://"
  }

  predicate NoControl(s: string) { forall i :: 0 <= i < |s| ==> ' ' <= s[i] && s[i] as int != 127 }

  /** The last position of c, or -1. */
  function LastIndex(s: string, c: char): (i: int)
    ensures -1 <= i < |s| && (i >= 0 ==> s[i] == c) && forall j :: i < j < |s| ==> s[j] != c
  {
    if s == [] then -1 else if s[|s| - 1] == c then |s| - 1 else LastIndex(s[..|s| - 1], c)
  }

  /** Characters user info may hold. */
  predicate UserPlain(c: char) {
    Unreserved(c) || c in ":!$&'()*+,;=%@"
  }

  /** name, or name:password, percent-escaped. */
  predicate GoodUser(u: string) {
    && (forall i :: 0 <= i < |u| ==> UserPlain(u[i]))
    && Unescape(Before(u, ':'), false).Some? && Unescape(After(u, ':'), false).Some?
  }

  /** host and port, after user info that is dropped. */
  function ParseAuthority(a: string): Option<(string, Option<string>)> {
    var i := LastIndex(a, '@');
    if i >= 0 && !GoodUser(a[..i]) then None else ParseHost(a[i + 1..])
  }

  /** host, or host:port with digits only. */
  function ParseHost(a: string): Option<(string, Option<string>)> {
    var host := Before(a, ':');
    if !PlainHost(host) then None
    else if |host| == |a| then Some((host, None))
    else if AllDecimal(After(a, ':')) then Some((host, Some(After(a, ':'))))
    else None
  }

  /** authority, path and query of a link whose scheme and query have been cut off. */
  function ParseHierarchy(rest: string, query: string): Option<Url> {
    match (ParseAuthority(rest[..Index(rest, '/')]), Unescape(rest[Index(rest, '/')..], false))
    case (Some((host, port)), Some(path)) => Some(Url(host, port, path, query))
    case _ => None
  }

  /** A link without its fragment. */
  function ParseWhole(u: string): Option<Url> {
    if !NoControl(u) || !IsKnock(u) then None else ParseHierarchy(Before(u[8..], '?'), After(u[8..], '?'))
  }

  /** url.Parse of a knock link; None also for links outside the modelled shape. */
  function ParseUrl(link: string): Option<Url> {
    if Unescape(After(link, '#'), false).None? then None else ParseWhole(Before(link, '#'))
  }

  /** The two path segments, when there are exactly two. */
  function Segments(path: string): Option<(string, string)> {
    var t := if path != "" && path[0] == '/' then path[1..] else path;
    if '/' in t && '/' !in After(t, '/') then Some((Before(t, '/'), After(t, '/'))) else None
  }

  predicate GoodPort(port: Option<string>) {
    port.Some? && port.value != "" && AllDecimal(port.value) && 1 <= NumberOf(port.value) <= 65535
  }

  function FromQuery(sha: string -> Digest, host: string, port: int, qid: string, k: string,
                     c: string): Option<Invite> {
    match Base64Url.Decode(k)
    case None => None
    case Some(key) =>
      if |key| != 32 then None
      else if c == "" then None
      else if c != Checksum(sha, host, port, qid, k) then None
      else Some(Invite(host, port, qid, key))
  }

  function FromUrl(sha: string -> Digest, u: Url): Option<Invite> {
    match Segments(u.path)
    case None => None
    case Some((version, qid)) =>
      if version != INVITE_VERSION then None
      else if !ValidQueueID(qid) then None
      else if !GoodPort(u.port) then None
      else FromQuery(sha, u.host, NumberOf(u.port.value), qid, Get(u.query, "k"), Get(u.query, "c"))
  }

  function ParseInvite(sha: string -> Digest, link: string): Option<Invite> {
    match ParseUrl(link)
    case None => None
    case Some(u) => FromUrl(sha, u)
  }

  // ---- what is printed is read back ----

  lemma KeyTextIsPlain(s: string)
    requires Base64Url.AllDigits64(s)
    ensures forall i :: 0 <= i < |s| ==> Unreserved(s[i])
  {
  }

  predicate AllUnreserved(s: string) { forall i :: 0 <= i < |s| ==> Unreserved(s[i]) }

  lemma ItoaIsPlain(n: int)
    ensures AllUnreserved(Itoa(n)) && Itoa(n) != "" && (AllDecimal(Itoa(n)) <==> n >= 0)
  {
    if n < 0 {
      assert Itoa(n)[0] == '-';
      assert forall i :: 1 <= i < |Itoa(n)| ==> Itoa(n)[i] == Decimal(-n)[i - 1];
    }
  }

  lemma PairOf(name: char, v: string)
    requires AllUnreserved(v) && Unreserved(name)
    ensures Pair([name, '='] + v) == Some(([name], v))
  {
    var part := [name, '='] + v;
    assert part == [name] + ['='] + v;
    CutAt([name], '=', v);
    UnescapePlain([name], true);
    UnescapePlain(v, true);
    assert forall i :: 0 <= i < |part| ==> part[i] == '=' || Unreserved(part[i]);
  }

  lemma QueryReads(keyText: string, sum: string)
    requires AllUnreserved(keyText) && AllUnreserved(sum)
    ensures Get(Query(keyText, sum), "k") == keyText && Get(Query(keyText, sum), "c") == sum
  {
    var first, second := ['k', '='] + keyText, ['c', '='] + sum;
    assert Query(keyText, sum) == first + ['&'] + second;
    CutAt(first, '&', second);
    PairOf('k', keyText);
    LastPairReads('c', sum);
  }

  /** The first value under a name counts. */
  lemma FirstValueCounts(name: char, v: string, rest: string)
    requires AllUnreserved(v) && Unreserved(name)
    ensures Get([name, '='] + v + ['&'] + rest, [name]) == v
    ensures forall other :: other != [name] ==> Get([name, '='] + v + ['&'] + rest, other) == Get(rest, other)
  {
    CutAt([name, '='] + v, '&', rest);
    PairOf(name, v);
  }

  lemma LastPairReads(name: char, v: string)
    requires AllUnreserved(v) && Unreserved(name)
    ensures Get([name, '='] + v, [name]) == v
  {
    var part := [name, '='] + v;
    PairOf(name, v);
    assert '&' !in part;
    NoIndex(part, '&');
    assert Before(part, '&') == part;
  }

  lemma SegmentsOf(qid: string)
    ensures Segments(Path(qid)) == if '/' in qid then None else Some((INVITE_VERSION, qid))
  {
    var t := Path(qid)[1..];
    assert t == INVITE_VERSION + ['/'] + qid;
    CutAt(INVITE_VERSION, '/', qid);
  }

  lemma AuthorityOf(host: string, port: int)
    requires PlainHost(host)
    ensures ParseAuthority(host + ":" + Itoa(port)) == if port < 0 then None else Some((host, Some(Decimal(port))))
  {
    ItoaIsPlain(port);
    NoAtSign(host, Itoa(port));
    NoUser(host + ":" + Itoa(port));
    HostOf(host, Itoa(port));
  }

  lemma NoAtSign(host: string, digits: string)
    requires PlainHost(host) && AllUnreserved(digits)
    ensures '@' !in host + ":" + digits
  {
  }

  lemma NoUser(a: string)
    requires '@' !in a
    ensures ParseAuthority(a) == ParseHost(a)
  {
    assert a[0..] == a;
  }

  lemma HostOf(host: string, digits: string)
    requires PlainHost(host)
    ensures ParseHost(host + ":" + digits) == if AllDecimal(digits) then Some((host, Some(digits))) else None
  {
    CutAt(host, ':', digits);
    assert host + ":" + digits == host + [':'] + digits;
  }

  lemma SlashFollows(a: string, e: string)
    requires '/' !in a && e != [] && e[0] == '/'
    ensures Index(a + e, '/') == |a| && (a + e)[..|a|] == a && (a + e)[|a|..] == e
  {
    FirstAt(a + e, '/', |a|);
  }

  lemma FirstAt(s: string, c: char, n: nat)
    requires n < |s| && s[n] == c && forall j :: 0 <= j < n ==> s[j] != c
    ensures Index(s, c) == n
  {
  }

  lemma HierarchyParses(host: string, port: int, path: string, q: string)
    requires PlainHost(host) && Bytes(path) && path != [] && path[0] == '/'
    ensures ParseHierarchy(host + ":" + Itoa(port) + EscapePath(path), q)
         == if port < 0 then None else Some(Url(host, Some(Decimal(port)), path, q))
  {
    var a, e := host + ":" + Itoa(port), EscapePath(path);
    ItoaIsPlain(port);
    SlashFollows(a, e);
    AuthorityOf(host, port);
    UnescapePath(path);
  }

  lemma PartsParse(host: string, port: int, path: string, q: string, link: string)
    requires PlainHost(host) && Bytes(path) && path != [] && path[0] == '/'
    requires forall k :: 0 <= k < |q| ==> Unreserved(q[k]) || q[k] == '=' || q[k] == '&'
    requires link == "knock://" + (host + ":" + Itoa(port) + EscapePath(path) + ['?'] + q)
    ensures ParseUrl(link) == if port < 0 then None else Some(Url(host, Some(Decimal(port)), path, q))
  {
    var a, e := host + ":" + Itoa(port), EscapePath(path);
    assert link[8..] == a + e + ['?'] + q;
    ItoaIsPlain(port);
    EscapePathIsClean(path);
    LinkIsClean(a, e, q, link);
    NoQuestionMark(a, e);
    CutAt(a + e, '?', q);
    NoIndex(link, '#');
    assert Before(link, '#') == link;
    HierarchyParses(host, port, path, q);
  }

  /** url.Parse takes a printed link apart again, unless the port is negative. */
  lemma LinkParses(sha: string -> Digest, i: Invite, keyText: string)
    requires PlainHost(i.host) && Bytes(i.qid) && AllUnreserved(keyText)
    ensures ParseUrl(Link(sha, i, keyText))
         == if i.port < 0 then None
            else Some(Url(i.host, Some(Decimal(i.port)), Path(i.qid),
                          Query(keyText, Checksum(sha, i.host, i.port, i.qid, keyText))))
  {
    var sum, path := Checksum(sha, i.host, i.port, i.qid, keyText), Path(i.qid);
    var q := Query(keyText, sum);
    QueryIsPlain(keyText, sum);
    assert Link(sha, i, keyText) == "knock://" + (i.host + ":" + Itoa(i.port) + EscapePath(path) + ['?'] + q);
    PartsParse(i.host, i.port, path, q, Link(sha, i, keyText));
  }

  lemma QueryIsPlain(keyText: string, sum: string)
    requires AllUnreserved(keyText) && AllUnreserved(sum)
    ensures forall k :: 0 <= k < |Query(keyText, sum)| ==>
      Unreserved(Query(keyText, sum)[k]) || Query(keyText, sum)[k] == '=' || Query(keyText, sum)[k] == '&'
  {
  }

  lemma NoQuestionMark(a: string, e: string)
    requires forall k :: 0 <= k < |a| ==> HostPlain(a[k]) || a[k] == ':'
    requires forall k :: 0 <= k < |e| ==> PathPlain(e[k]) || e[k] == '%'
    ensures '?' !in a + e
  {
  }

  lemma LinkIsClean(a: string, e: string, q: string, link: string)
    requires link == "knock://" + (a + e + ['?'] + q)
    requires forall k :: 0 <= k < |a| ==> HostPlain(a[k]) || a[k] == ':'
    requires forall k :: 0 <= k < |e| ==> PathPlain(e[k]) || e[k] == '%'
    requires forall k :: 0 <= k < |q| ==> Unreserved(q[k]) || q[k] == '=' || q[k] == '&'
    ensures NoControl(link) && '#' !in link && IsKnock(link)
  {
    forall k | 0 <= k < |link| ensures ' ' <= link[k] && link[k] as int != 127 && link[k] != '#' {
      if k >= 8 {
        var m := k - 8;
        if m < |a| { assert link[k] == a[m]; }
        else if m < |a| + |e| { assert link[k] == e[m - |a|]; }
        else if m > |a| + |e| { assert link[k] == q[m - |a| - |e| - 1]; }
      }
    }
  }

  predicate GoodInvite(i: Invite) {
    1 <= i.port <= 65535 && ValidQueueID(i.qid)
  }

  lemma QueueIdHasNoSlash(qid: string)
    requires ValidQueueID(qid)
    ensures '/' !in qid && Bytes(qid)
  {
    ValidQueueIDIff(qid);
  }

  lemma UrlReadsBack(sha: string -> Digest, i: Invite, keyText: string, sum: string)
    requires i.port >= 0 && AllUnreserved(keyText) && Base64Url.Decode(keyText) == Some(i.boxPub)
    requires sum == Checksum(sha, i.host, i.port, i.qid, keyText)
    ensures FromUrl(sha, Url(i.host, Some(Decimal(i.port)), Path(i.qid), Query(keyText, sum)))
         == if GoodInvite(i) then Some(i) else None
  {
    QueryReads(keyText, sum);
    assert FromQuery(sha, i.host, i.port, i.qid, keyText, sum) == Some(i);
    SegmentsOf(i.qid);
    PortReads(i.port);
    if ValidQueueID(i.qid) {
      QueueIdHasNoSlash(i.qid);
      assert Segments(Path(i.qid)) == Some((INVITE_VERSION, i.qid));
    }
  }

  lemma PortReads(port: nat)
    ensures NumberOf(Decimal(port)) == port && (GoodPort(Some(Decimal(port))) <==> 1 <= port <= 65535)
  {
    NumberOfDecimal(port);
  }

  /** A link that spells the key in any of its decodable ways is read back as the invite,
      exactly when the port is a real port and the queue id is 32 hex digits. */
  lemma LinkReadsBack(sha: string -> Digest, i: Invite, keyText: string)
    requires PlainHost(i.host) && Bytes(i.qid)
    requires Base64Url.AllDigits64(keyText) && Base64Url.Decode(keyText) == Some(i.boxPub)
    ensures ParseInvite(sha, Link(sha, i, keyText)) == if GoodInvite(i) then Some(i) else None
  {
    KeyTextIsPlain(keyText);
    LinkParses(sha, i, keyText);
    if i.port >= 0 { UrlReadsBack(sha, i, keyText, Checksum(sha, i.host, i.port, i.qid, keyText)); }
  }

  /** Printing and parsing: exact for every host that needs no escaping, every port, every
      queue id and key. Port 0 is printed, and refused on the way back. */
  lemma RoundTripIff(sha: string -> Digest, i: Invite)
    requires PlainHost(i.host) && Bytes(i.qid)
    ensures ParseInvite(sha, Print(sha, i)) == Some(i) <==> GoodInvite(i)
    ensures !GoodInvite(i) ==> ParseInvite(sha, Print(sha, i)) == None
  {
    Base64Url.DecodeEncode(i.boxPub);
    LinkReadsBack(sha, i, Base64Url.Encode(i.boxPub));
  }

  /** What a checksum is to cover. */
  function Canonical(i: Invite, key: string): string {
    "knock|" + i.host + "|" + Itoa(i.port) + "|" + i.qid + "|" + key
  }

  lemma {:induction false} PlainIsNotEscaped(s: string)
    requires Bytes(s) && forall i :: 0 <= i < |s| ==> PathPlain(s[i])
    ensures EscapePath(s) == s
  {
    if s != [] {
      PlainIsNotEscaped(s[1..]);
      assert s == [s[0]] + s[1..];
    }
  }

  /** The link of a good invite, letter by letter. */
  lemma PrintedText(sha: string -> Digest, i: Invite)
    requires PlainHost(i.host) && GoodInvite(i)
    ensures Bytes(i.qid)
    ensures var key := Base64Url.Encode(i.boxPub);
      Print(sha, i) == "knock://" + i.host + ":" + Decimal(i.port) + "/v2/" + i.qid + "?k=" + key
                       + "&c=" + HexEncode(sha(Canonical(i, key))[..4])
  {
    ValidQueueIDIff(i.qid);
    assert Path(i.qid) == "/v2/" + i.qid;
    PlainIsNotEscaped(Path(i.qid));
  }

  /** All four spellings of the key are read as one invite, each under its own checksum. */
  lemma SpellingsReadAlike(sha: string -> Digest, i: Invite, j: int)
    requires PlainHost(i.host) && GoodInvite(i) && 0 <= j < 4
    ensures Bytes(i.qid) && ParseInvite(sha, Link(sha, i, Base64Url.Spelling(i.boxPub, j))) == Some(i)
  {
    QueueIdHasNoSlash(i.qid);
    Base64Url.SpellingDecodes(i.boxPub, j);
    LinkReadsBack(sha, i, Base64Url.Spelling(i.boxPub, j));
  }

  /** The checksum in u is that of the host, port, queue id and key text that i has: the first
      four bytes of their hash, in hex. */
  predicate Vouches(sha: string -> Digest, u: Url, i: Invite) {
    var key := Get(u.query, "k");
    && Get(u.query, "c") == HexEncode(sha(Canonical(i, key))[..4])
    && Base64Url.Decode(key) == Some(i.boxPub)
  }

  /** And its parts are those of i. The port may have leading zeros. */
  predicate Names(u: Url, i: Invite) {
    && u.host == i.host && (u.path == "/v2/" + i.qid || u.path == "v2/" + i.qid)
    && u.port.Some? && u.port.value != "" && AllDecimal(u.port.value) && NumberOf(u.port.value) == i.port
  }

  /** Exactly which links are accepted, part by part. */
  lemma AcceptedUrl(sha: string -> Digest, u: Url, i: Invite)
    ensures FromUrl(sha, u) == Some(i) <==> GoodInvite(i) && Names(u, i) && Vouches(sha, u, i)
  {
    if FromUrl(sha, u) == Some(i) { SegmentsCut(u.path, i.qid); }
    if GoodInvite(i) && Names(u, i) {
      NamedSegments(u.path, i.qid);
      QueryIsAccepted(sha, u, i);
    }
  }

  lemma QueryIsAccepted(sha: string -> Digest, u: Url, i: Invite)
    ensures FromQuery(sha, i.host, i.port, i.qid, Get(u.query, "k"), Get(u.query, "c")) == Some(i)
       <==> Vouches(sha, u, i)
  {
  }

  lemma NamedSegments(path: string, qid: string)
    requires ValidQueueID(qid) && (path == "/v2/" + qid || path == "v2/" + qid)
    ensures Segments(path) == Some((INVITE_VERSION, qid))
  {
    QueueIdHasNoSlash(qid);
    SegmentsOf(qid);
    ShortSegmentsOf(qid);
    assert Path(qid) == "/v2/" + qid;
  }

  lemma ShortSegmentsOf(qid: string)
    requires '/' !in qid
    ensures Segments("v2/" + qid) == Some(("v2", qid))
  {
    assert "v2/" + qid == "v2" + ['/'] + qid;
    CutAt("v2", '/', qid);
  }

  lemma SegmentsCut(path: string, qid: string)
    requires Segments(path) == Some(("v2", qid))
    ensures path == "/v2/" + qid || path == "v2/" + qid
  {
    var t := if path != "" && path[0] == '/' then path[1..] else path;
    IndexFinds(t, '/');
    assert t == Before(t, '/') + ['/'] + After(t, '/');
    assert "v2" + ['/'] + qid == "v2/" + qid;
    assert path == t || path == "/" + t;
  }

  lemma IndexFinds(s: string, c: char)
    requires c in s
    ensures Index(s, c) < |s|
  {
  }

  /** What an accepted link vouches for. */
  lemma AcceptedLink(sha: string -> Digest, link: string, i: Invite)
    requires ParseInvite(sha, link) == Some(i)
    ensures PlainHost(i.host) && GoodInvite(i) && Bytes(i.qid)
    ensures ParseUrl(link).Some? && Vouches(sha, ParseUrl(link).value, i)
  {
    AcceptedUrl(sha, ParseUrl(link).value, i);
    QueueIdHasNoSlash(i.qid);
  }

  /** Four parts of which the first three hold no bar are told apart by the text they make. */
  lemma PartsAreRead(a: string, b: string, c: string, d: string)
    requires '|' !in a && '|' !in b && '|' !in c
    ensures var s := "knock|" + a + "|" + b + "|" + c + "|" + d;
      && Before(After(s, '|'), '|') == a
      && Before(After(After(s, '|'), '|'), '|') == b
      && Before(After(After(After(s, '|'), '|'), '|'), '|') == c
      && After(After(After(After(s, '|'), '|'), '|'), '|') == d
  {
    var s3 := c + ['|'] + d;
    var s2 := b + ['|'] + s3;
    var s1 := a + ['|'] + s2;
    assert "knock|" + a + "|" + b + "|" + c + "|" + d == "knock" + ['|'] + s1;
    CutAt("knock", '|', s1);
    CutAt(a, '|', s2);
    CutAt(b, '|', s3);
    CutAt(c, '|', d);
  }

  lemma NoBars(i: Invite)
    requires PlainHost(i.host) && GoodInvite(i)
    ensures '|' !in i.host && '|' !in Itoa(i.port) && '|' !in i.qid
  {
    ItoaIsPlain(i.port);
    ValidQueueIDIff(i.qid);
  }

  lemma TextsDiffer(i: Invite, k: string, i': Invite, k': string)
    requires PlainHost(i.host) && GoodInvite(i) && PlainHost(i'.host) && GoodInvite(i')
    requires i.host != i'.host || i.port != i'.port || i.qid != i'.qid || k != k'
    ensures Canonical(i, k) != Canonical(i', k')
  {
    NoBars(i);
    NoBars(i');
    PartsAreRead(i.host, Itoa(i.port), i.qid, k);
    PartsAreRead(i'.host, Itoa(i'.port), i'.qid, k');
    NumberOfDecimal(i.port);
    NumberOfDecimal(i'.port);
  }

  lemma SameHexSameBytes(a: seq<Byte>, b: seq<Byte>)
    requires HexEncode(a) == HexEncode(b)
    ensures a == b
  {
    HexRoundTrip(a);
    HexRoundTrip(b);
  }

  /** The scheme may be in either case, and a fragment is dropped. */
  lemma VariantsReadAlike(scheme: string, rest: string, fragment: string)
    requires |scheme| == 5 && (forall k :: 0 <= k < 5 ==> Lower(scheme[k]) == "knock"[k])
    requires '#' !in rest && Unescape(fragment, false).Some?
    ensures ParseUrl(scheme + "://" + rest + "#" + fragment) == ParseUrl("knock" + "://" + rest)
  {
    SchemeReads(scheme, rest);
    SchemeReads("knock", rest);
    FragmentIsDropped(scheme + "://" + rest, fragment);
    WithoutFragment("knock" + "://" + rest);
  }

  lemma FragmentIsDropped(u: string, fragment: string)
    requires '#' !in u && Unescape(fragment, false).Some?
    ensures ParseUrl(u + "#" + fragment) == ParseWhole(u)
  {
    CutAt(u, '#', fragment);
  }

  lemma WithoutFragment(u: string)
    requires '#' !in u
    ensures ParseUrl(u) == ParseWhole(u)
  {
    NoIndex(u, '#');
    assert Before(u, '#') == u;
  }

  lemma SchemeReads(scheme: string, rest: string)
    requires |scheme| == 5 && (forall k :: 0 <= k < 5 ==> Lower(scheme[k]) == "knock"[k]) && '#' !in rest
    ensures '#' !in scheme + "://" + rest
    ensures ParseWhole(scheme + "://" + rest)
         == if NoControl(rest) then ParseHierarchy(Before(rest, '?'), After(rest, '?')) else None
  {
    var u := scheme + "://" + rest;
    assert u[..5] == scheme && u[5..8] == "://" && u[8..] == rest;
    SchemeIsKnock(scheme, u);
    ControlInRest(u, rest);
    assert '#' !in u by {
      assert forall k :: 8 <= k < |u| ==> u[k] == rest[k - 8] && rest[k - 8] in rest;
    }
    WholeIsHierarchy(u, rest);
  }

  lemma WholeIsHierarchy(u: string, rest: string)
    requires IsKnock(u) && u[8..] == rest
    ensures ParseWhole(u) == if NoControl(u) then ParseHierarchy(Before(rest, '?'), After(rest, '?')) else None
  {
  }

  lemma ControlInRest(u: string, rest: string)
    requires |u| >= 8 && u[8..] == rest && forall k :: 0 <= k < 8 ==> ' ' < u[k] && u[k] as int < 127
    ensures NoControl(u) <==> NoControl(rest)
  {
    assert forall k :: 0 <= k < |rest| ==> rest[k] == u[k + 8];
    assert forall k :: 8 <= k < |u| ==> u[k] == rest[k - 8];
  }

  lemma SchemeIsKnock(scheme: string, u: string)
    requires |scheme| == 5 && |u| >= 8 && u[..5] == scheme && u[5..8] == "://"
    requires forall k :: 0 <= k < 5 ==> Lower(scheme[k]) == "knock"[k]
    ensures IsKnock(u) && forall k :: 0 <= k < 8 ==> ' ' < u[k] && u[k] as int < 127 && u[k] != '#'
  {
    assert forall k :: 0 <= k < 5 ==> u[k] == scheme[k];
    assert forall k :: 5 <= k < 8 ==> u[k] == "://"[k - 5];
  }

  /** Two texts whose hashes agree in the first four bytes. */
  predicate Collide(sha: string -> Digest, a: string, b: string) {
    a != b && sha(a)[..4] == sha(b)[..4]
  }

  lemma SameSumIsCollision(sha: string -> Digest, u: Url, i: Invite, u': Url, i': Invite) returns (a: string, b: string)
    requires Vouches(sha, u, i) && Vouches(sha, u', i') && Get(u.query, "c") == Get(u'.query, "c")
    requires PlainHost(i.host) && GoodInvite(i) && PlainHost(i'.host) && GoodInvite(i')
    requires i.host != i'.host || i.port != i'.port || i.qid != i'.qid || Get(u.query, "k") != Get(u'.query, "k")
    ensures Collide(sha, a, b)
  {
    var k, k' := Get(u.query, "k"), Get(u'.query, "k");
    TextsDiffer(i, k, i', k');
    a, b := Canonical(i, k), Canonical(i', k');
    SameHexSameBytes(sha(a)[..4], sha(b)[..4]);
  }

  /** Two accepted links that differ in host, port, queue id or spelling of the key cannot
      carry one checksum, unless two different texts agree in the first four bytes of their
      hash: a slip of the finger is noticed. */
  lemma MistypedLinkIsRefused(sha: string -> Digest, link: string, u: Url, i: Invite,
                              link': string, u': Url, i': Invite) returns (a: string, b: string)
    requires ParseUrl(link) == Some(u) && ParseUrl(link') == Some(u') && Get(u.query, "c") == Get(u'.query, "c")
    requires i.host != i'.host || i.port != i'.port || i.qid != i'.qid || Get(u.query, "k") != Get(u'.query, "k")
    requires ParseInvite(sha, link) == Some(i) && ParseInvite(sha, link') == Some(i')
    ensures Collide(sha, a, b)
  {
    AcceptedLink(sha, link, i);
    AcceptedLink(sha, link', i');
    a, b := SameSumIsCollision(sha, u, i, u', i');
  }

  /** Normalisation: printing whatever was accepted gives a link for the same invite, though
      the accepted text may have had leading zeros, other query parameters, escapes, an
      upper-case scheme or another spelling of the key. */
  lemma AcceptedLinksNormalise(sha: string -> Digest, link: string, i: Invite)
    requires ParseInvite(sha, link) == Some(i)
    ensures PlainHost(i.host) && Bytes(i.qid) && ParseInvite(sha, Print(sha, i)) == Some(i)
  {
    AcceptedLink(sha, link, i);
    RoundTripIff(sha, i);
  }
}
