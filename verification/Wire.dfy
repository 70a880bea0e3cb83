/** The proxy handshakes, byte by byte: SOCKS5 (RFC 1928, RFC 1929) and HTTP CONNECT (RFC 9110, section 9.3.6). */
module Wire {
  import opened Wrappers
  import opened Fernet

  type Bytes = seq<Byte>

  const HEADER_LIMIT := 65536

  /** A connection to a proxy. It can break at any time: `alive` counts the operations that still succeed. */
  class Conn {
    var sent: Bytes
    var inbox: Bytes
    var alive: nat

    constructor (inbox: Bytes, alive: nat)
      ensures this.inbox == inbox && this.alive == alive && sent == []
    {
      this.inbox, this.alive, sent := inbox, alive, [];
    }

    method Write(bs: Bytes) returns (ok: bool)
      modifies this`sent, this`alive
      ensures ok <==> old(alive) > 0
      ensures ok ==> sent == old(sent) + bs && alive == old(alive) - 1
      ensures !ok ==> sent == old(sent) && alive == 0
    {
      ok := alive > 0;
      if ok {
        sent, alive := sent + bs, alive - 1;
      }
    }

    /** `io.ReadFull` */
    method ReadFull(n: nat) returns (r: Option<Bytes>)
      modifies this`inbox, this`alive
      ensures r.Some? <==> old(alive) > 0 && n <= |old(inbox)|
      ensures r.Some? ==> r.value == old(inbox)[..n] && inbox == old(inbox)[n..] && alive == old(alive) - 1
    {
      if alive == 0 || n > |inbox| {
        inbox, alive := [], 0;
        return None;
      }
      r := Some(inbox[..n]);
      inbox, alive := inbox[n..], alive - 1;
    }
  }

  // ----- SOCKS5: what the client says -----

  datatype Login = Login(user: Bytes, pass: Bytes)

  /** What address parsing makes of the host: the 16-byte form of an IP, or a name. */
  datatype Host = Ip(bytes: seq<Byte>) | Name(bytes: Bytes)

  /** The split target; None for a text that does not split or a port that is no number. */
  datatype Target = Target(host: Host, port: int)

  predicate HostOk(host: Host) {
    match host
    case Ip(bytes) => |bytes| == 16
    case Name(bytes) => 0 < |bytes| <= 255
  }

  predicate TargetOk(target: Option<Target>) {
    target.Some? && HostOk(target.value.host) && 1 <= target.value.port <= 65535
  }

  predicate LoginOk(login: Option<Login>) {
    login.Some? ==> |login.value.user| <= 255 && |login.value.pass| <= 255
  }

  /** `ip.To4() != nil` */
  predicate IsV4(bytes: Bytes) {
    |bytes| == 16 && bytes[..10] == [0, 0, 0, 0, 0, 0, 0, 0, 0, 0] && bytes[10] == 255 && bytes[11] == 255
  }

  function Greeting(login: Option<Login>): Bytes {
    [5, 1, if login.Some? then 2 else 0]
  }

  function LoginText(login: Login): Bytes
    requires LoginOk(Some(login))
  {
    [1, |login.user|] + login.user + [|login.pass|] + login.pass
  }

  function Address(host: Host): Bytes
    requires HostOk(host)
  {
    match host
    case Ip(bytes) => if IsV4(bytes) then [1] + bytes[12..] else [4] + bytes
    case Name(bytes) => [3, |bytes|] + bytes
  }

  function Port(port: int): Bytes
    requires 0 <= port <= 65535
  {
    [port / 256, port % 256]
  }

  function Request(target: Target): Bytes
    requires TargetOk(Some(target))
  {
    [5, 1, 0] + Address(target.host) + Port(target.port)
  }

  // ----- SOCKS5: how a server reads it -----

  datatype Addr = V4(bytes: Bytes) | V6(bytes: Bytes) | Domain(bytes: Bytes)

  datatype Read<T> = Read(value: T, rest: Bytes)

  /** RFC 1929, section 2. */
  function ReadLogin(s: Bytes): Option<Read<Login>> {
    if |s| < 2 || s[0] != 1 || |s| < 3 + s[1] as int then None
    else
      var n := s[1] as int;
      var m := s[2 + n] as int;
      if |s| < 3 + n + m then None else Some(Read(Login(s[2..2 + n], s[3 + n..3 + n + m]), s[3 + n + m..]))
  }

  /** The address of RFC 1928, section 5, after its type byte. */
  function ReadAddr(kind: Byte, s: Bytes): Option<Read<Addr>> {
    if kind == 1 && |s| >= 4 then Some(Read(V4(s[..4]), s[4..]))
    else if kind == 4 && |s| >= 16 then Some(Read(V6(s[..16]), s[16..]))
    else if kind == 3 && |s| >= 1 && |s| >= 1 + s[0] as int then
      Some(Read(Domain(s[1..1 + s[0] as int]), s[1 + s[0] as int..]))
    else None
  }

  datatype Asked = Asked(command: Byte, addr: Addr, port: int)

  /** RFC 1928, section 4. */
  function ReadRequest(s: Bytes): Option<Read<Asked>> {
    if |s| < 4 || s[0] != 5 || s[2] != 0 then None
    else
      match ReadAddr(s[3], s[4..])
      case None => None
      case Some(Read(addr, rest)) =>
        if |rest| < 2 then None else Some(Read(Asked(s[1], addr, rest[0] as int * 256 + rest[1] as int), rest[2..]))
  }

  function Meant(host: Host): Addr
    requires HostOk(host)
  {
    match host
    case Ip(bytes) => if IsV4(bytes) then V4(bytes[12..]) else V6(bytes)
    case Name(bytes) => Domain(bytes)
  }

  lemma LoginRoundTrip(login: Login, rest: Bytes)
    requires LoginOk(Some(login))
    ensures ReadLogin(LoginText(login) + rest) == Some(Read(login, rest))
  {
    var s := LoginText(login) + rest;
    var n, m := |login.user|, |login.pass|;
    assert s == [1, n] + (login.user + ([m] + (login.pass + rest)));
    assert s[2..2 + n] == login.user && s[2 + n] == m;
    assert s[3 + n..3 + n + m] == login.pass && s[3 + n + m..] == rest;
  }

  lemma FixedRoundTrip(kind: Byte, bytes: Bytes, rest: Bytes)
    requires (kind == 1 && |bytes| == 4) || (kind == 4 && |bytes| == 16)
    ensures ReadAddr(kind, bytes + rest) == Some(Read(if kind == 1 then V4(bytes) else V6(bytes), rest))
  {
    assert (bytes + rest)[..|bytes|] == bytes && (bytes + rest)[|bytes|..] == rest;
  }

  lemma NameRoundTrip(bytes: Bytes, rest: Bytes)
    requires |bytes| <= 255
    ensures ReadAddr(3, [|bytes|] + bytes + rest) == Some(Read(Domain(bytes), rest))
  {
    var s := [|bytes|] + bytes + rest;
    assert s[1..1 + |bytes|] == bytes && s[1 + |bytes|..] == rest;
  }

  lemma FirstOff(first: Byte, s: Bytes, rest: Bytes)
    ensures ([first] + s + rest)[0] == first && ([first] + s + rest)[1..] == s + rest
  {
  }

  lemma AddressRoundTrip(host: Host, rest: Bytes)
    requires HostOk(host)
    ensures var s := Address(host) + rest; ReadAddr(s[0], s[1..]) == Some(Read(Meant(host), rest))
  {
    hide ReadAddr, IsV4;
    match host
    case Ip(bytes) =>
      var kind, octets := if IsV4(bytes) then 1 else 4, if IsV4(bytes) then bytes[12..] else bytes;
      FirstOff(kind, octets, rest);
      FixedRoundTrip(kind, octets, rest);
    case Name(bytes) =>
      assert [3, |bytes|] + bytes == [3] + ([|bytes|] + bytes);
      FirstOff(3, [|bytes|] + bytes, rest);
      NameRoundTrip(bytes, rest);
  }

  /** For every IPv4, IPv6 or named host and every port a server recovers exactly what was asked, and
      nothing of what follows. */
  lemma RequestRoundTrip(target: Target, rest: Bytes)
    requires TargetOk(Some(target))
    ensures ReadRequest(Request(target) + rest) == Some(Read(Asked(1, Meant(target.host), target.port), rest))
  {
    hide Address, ReadAddr, Meant;
    var after := Port(target.port) + rest;
    var s := Request(target) + rest;
    AddressStarts(target.host, after);
    assert s == [5, 1, 0] + (Address(target.host) + after);
    assert s[3] == (Address(target.host) + after)[0] && s[4..] == (Address(target.host) + after)[1..];
    AddressRoundTrip(target.host, after);
    assert after[2..] == rest;
  }

  lemma AddressStarts(host: Host, rest: Bytes)
    requires HostOk(host)
    ensures |Address(host) + rest| >= 1
  {
  }

  // ----- SOCKS5: what the client takes from the server -----

  /** The replies to greeting and login: their length if the client goes on. */
  function AuthReply(s: Bytes, login: bool): Option<nat> {
    if |s| < 2 || s[0] != 5 then None
    else if login then if s[1] == 2 && |s| >= 4 && s[2] == 1 && s[3] == 0 then Some(4) else None
    else if s[1] == 0 then Some(2) else None
  }

  /** The length of a bound address and its port after the type byte. */
  function BoundLength(kind: Byte, s: Bytes): Option<nat> {
    if kind == 1 then Some(6)
    else if kind == 4 then Some(18)
    else if kind == 3 && s != [] then Some(3 + s[0] as int)
    else None
  }

  function ConnectReply(s: Bytes): Option<nat> {
    if |s| < 4 || s[0] != 5 || s[1] != 0 then None
    else
      match BoundLength(s[3], s[4..])
      case None => None
      case Some(n) => if 4 + n <= |s| then Some(4 + n) else None
  }

  /** How many bytes the client takes of what the server sends, if it accepts. */
  function SocksReply(s: Bytes, login: bool): (r: Option<nat>)
    ensures r.Some? ==> r.value <= |s|
  {
    match AuthReply(s, login)
    case None => None
    case Some(a) =>
      match ConnectReply(s[a..])
      case None => None
      case Some(c) => Some(a + c)
  }

  function SocksText(login: Option<Login>, target: Target): Bytes
    requires LoginOk(login) && TargetOk(Some(target))
  {
    Greeting(login) + (if login.Some? then LoginText(login.value) else []) + Request(target)
  }

  /** The greeting and the login of `socksConnect`. */
  method SocksAuth(conn: Conn, login: Option<Login>) returns (ok: bool)
    modifies conn
    ensures ok ==> LoginOk(login) && AuthReply(old(conn.inbox), login.Some?).Some?
    ensures ok ==> conn.inbox == old(conn.inbox)[AuthReply(old(conn.inbox), login.Some?).value..]
                   && conn.sent == old(conn.sent) + Greeting(login)
                      + (if login.Some? then LoginText(login.value) else [])
    ensures old(conn.alive) >= 4 && LoginOk(login) && AuthReply(old(conn.inbox), login.Some?).Some? ==>
              ok && conn.alive >= old(conn.alive) - 4
  {
    ok := conn.Write(Greeting(login));
    if !ok {
      return;
    }
    var reply := conn.ReadFull(2);
    if reply.None? || reply.value[0] != 5 {
      return false;
    }
    if reply.value[1] == 2 && login.Some? {
      if |login.value.user| > 255 || |login.value.pass| > 255 {
        return false;
      }
      ok := conn.Write(LoginText(login.value));
      if !ok {
        return;
      }
      reply := conn.ReadFull(2);
      return reply.Some? && reply.value == [1, 0];
    }
    return reply.value[1] == 0 && login.None?;
  }

  /** The request of `socksConnect` and its reply. */
  method SocksRequest(conn: Conn, target: Target) returns (ok: bool)
    requires TargetOk(Some(target))
    modifies conn
    ensures ok ==> ConnectReply(old(conn.inbox)).Some?
    ensures ok ==> conn.inbox == old(conn.inbox)[ConnectReply(old(conn.inbox)).value..]
                   && conn.sent == old(conn.sent) + Request(target)
    ensures old(conn.alive) >= 4 && ConnectReply(old(conn.inbox)).Some? ==> ok && conn.alive >= old(conn.alive) - 4
  {
    ok := conn.Write(Request(target));
    if !ok {
      return;
    }
    var head := conn.ReadFull(4);
    if head.None? || head.value[0] != 5 || head.value[1] != 0 {
      return false;
    }
    var n: nat;
    if head.value[3] == 1 {
      n := 4;
    } else if head.value[3] == 4 {
      n := 16;
    } else if head.value[3] == 3 {
      var length := conn.ReadFull(1);
      if length.None? {
        return false;
      }
      n := length.value[0];
    } else {
      return false;
    }
    var address := conn.ReadFull(n + 2);
    return address.Some?;
  }

  /** `socksConnect`: on success the client has said exactly the protocol's words and has taken the server's
      replies and not one byte more; and on a connection that lasts it succeeds whenever the server accepts. */
  method SocksConnect(conn: Conn, login: Option<Login>, target: Option<Target>) returns (ok: bool)
    modifies conn
    ensures ok ==> LoginOk(login) && TargetOk(target) && SocksReply(old(conn.inbox), login.Some?).Some?
    ensures ok ==> conn.inbox == old(conn.inbox)[SocksReply(old(conn.inbox), login.Some?).value..]
                   && conn.sent == old(conn.sent) + SocksText(login, target.value)
    ensures old(conn.alive) >= 8 && LoginOk(login) && TargetOk(target)
              && SocksReply(old(conn.inbox), login.Some?).Some? ==>
              ok && conn.alive >= old(conn.alive) - 8
  {
    hide AuthReply, ConnectReply, Greeting, LoginText, Request, HostOk;
    ok := SocksAuth(conn, login);
    if !ok {
      return;
    }
    if target.None? || target.value.port < 1 || target.value.port > 65535 || !HostOk(target.value.host) {
      return false;
    }
    ok := SocksRequest(conn, target.value);
  }

  /** What an accepting server sends, with a bound address of any form. */
  function ServerSays(login: bool, reserved: Byte, bound: Addr, port: Bytes): Bytes
    requires AddrOk(bound) && |port| == 2
  {
    (if login then [5, 2, 1, 0] else [5, 0]) + [5, 0, reserved] + Bound(bound) + port
  }

  predicate AddrOk(addr: Addr) {
    match addr
    case V4(bytes) => |bytes| == 4
    case V6(bytes) => |bytes| == 16
    case Domain(bytes) => |bytes| <= 255
  }

  function Bound(addr: Addr): Bytes
    requires AddrOk(addr)
  {
    match addr
    case V4(bytes) => [1] + bytes
    case V6(bytes) => [4] + bytes
    case Domain(bytes) => [3, |bytes|] + bytes
  }

  /** Whatever follows an accepting server's replies stays in the connection. */
  lemma SocksReplyIsExact(login: bool, reserved: Byte, bound: Addr, port: Bytes, tail: Bytes)
    requires AddrOk(bound) && |port| == 2
    ensures var r := ServerSays(login, reserved, bound, port); SocksReply(r + tail, login) == Some(|r|)
  {
    hide ConnectReply, Bound;
    var a: Bytes := if login then [5, 2, 1, 0] else [5, 0];
    var s := ServerSays(login, reserved, bound, port) + tail;
    var c := [5, 0, reserved] + (Bound(bound) + (port + tail));
    assert s == a + c;
    assert s[|a|..] == c;
    ConnectReplyIsExact(reserved, bound, port + tail);
  }

  lemma ConnectReplyIsExact(reserved: Byte, bound: Addr, rest: Bytes)
    requires AddrOk(bound) && |rest| >= 2
    ensures ConnectReply([5, 0, reserved] + (Bound(bound) + rest)) == Some(3 + |Bound(bound)| + 2)
  {
    var c := [5, 0, reserved] + (Bound(bound) + rest);
    BoundIsRead(bound, rest);
    hide Bound, BoundLength;
    assert c[3] == (Bound(bound) + rest)[0] && c[4..] == (Bound(bound) + rest)[1..];
  }

  lemma BoundIsRead(bound: Addr, rest: Bytes)
    requires AddrOk(bound)
    ensures |Bound(bound)| >= 1
    ensures BoundLength((Bound(bound) + rest)[0], (Bound(bound) + rest)[1..]) == Some(|Bound(bound)| - 1 + 2)
  {
  }

  // ----- CONNECT: the header reader -----

  const CRLF: Bytes := [13, 10]

  /** s has CR LF CR LF at p. */
  predicate GapAt(s: Bytes, p: int) {
    0 <= p <= |s| - 4 && s[p] == 13 && s[p + 1] == 10 && s[p + 2] == 13 && s[p + 3] == 10
  }

  /** n is the length of the shortest prefix that ends in CR LF CR LF. */
  predicate HeaderEnds(s: Bytes, n: int) {
    GapAt(s, n - 4) && forall p | 0 <= p < |s| :: GapAt(s, p) ==> n - 4 <= p
  }

  lemma EndsInGap(text: Bytes, all: Bytes)
    requires text <= all && |text| >= 4
    ensures text[|text| - 4..] == [13, 10, 13, 10] <==> GapAt(all, |text| - 4)
  {
    assert text[|text| - 4..] == all[|text| - 4..|text|];
  }

  /** The header loop of `tunnelProxy`: byte by byte, so that nothing behind the header is taken. */
  method ReadHeader(conn: Conn) returns (header: Option<Bytes>)
    modifies conn`inbox, conn`alive
    ensures header.Some? ==>
              && HeaderEnds(old(conn.inbox), |header.value|) && |header.value| <= HEADER_LIMIT
              && |header.value| <= |old(conn.inbox)|
              && header.value == old(conn.inbox)[..|header.value|] && conn.inbox == old(conn.inbox)[|header.value|..]
    ensures header.Some? ==> conn.alive == old(conn.alive) - |header.value|
    ensures old(conn.alive) >= HEADER_LIMIT && (exists n :: HeaderEnds(old(conn.inbox), n) && n <= HEADER_LIMIT) ==>
              header.Some?
  {
    var text: Bytes := [];
    ghost var all := conn.inbox;
    while |text| < HEADER_LIMIT
      invariant |text| <= HEADER_LIMIT && |text| <= |all|
      invariant text == all[..|text|] && conn.inbox == all[|text|..] && conn.alive == old(conn.alive) - |text|
      invariant forall p :: GapAt(all, p) ==> |text| - 4 < p
      decreases HEADER_LIMIT - |text|
    {
      var b := conn.ReadFull(1);
      if b.None? {
        return None;
      }
      text := text + b.value;
      if |text| >= 4 && text[|text| - 4..] == [13, 10, 13, 10] {
        EndsInGap(text, all);
        return Some(text);
      }
      if |text| >= 4 {
        EndsInGap(text, all);
      }
    }
    return None;
  }

  // ----- CONNECT: the request -----

  /** Lines, each closed by CR LF, and the empty line that ends a header. */
  function HeaderText(lines: seq<Bytes>): Bytes {
    if lines == [] then CRLF else lines[0] + CRLF + HeaderText(lines[1..])
  }

  predicate Plain(line: Bytes) {
    line != [] && 13 !in line
  }

  /** A header of non-empty lines without CR ends where it seems to end, whatever follows it. */
  lemma {:induction false} HeaderTextEnds(lines: seq<Bytes>, rest: Bytes)
    requires lines != [] && forall i :: 0 <= i < |lines| ==> Plain(lines[i])
    ensures HeaderEnds(HeaderText(lines) + rest, |HeaderText(lines)|)
  {
    var line, after := lines[0], HeaderText(lines[1..]);
    var s := HeaderText(lines) + rest;
    assert s == line + (CRLF + (after + rest));
    LineStarts(line, after + rest);
    if |lines| == 1 {
      assert after == CRLF;
      LastLine(line, rest);
    } else {
      HeaderTextEnds(lines[1..], rest);
      FirstByte(lines[1..], rest);
      LineShifts(line, after + rest, |after|);
    }
  }

  lemma FirstByte(lines: seq<Bytes>, rest: Bytes)
    requires lines != [] && Plain(lines[0])
    ensures |HeaderText(lines) + rest| >= 1 && (HeaderText(lines) + rest)[0] != 13
  {
    assert (HeaderText(lines) + rest)[0] == lines[0][0];
    assert lines[0][0] in lines[0];
  }

  lemma NotInLine(line: Bytes, t: Bytes, p: nat)
    requires Plain(line) && (p < |line| || p == |line| + 1)
    ensures !GapAt(line + (CRLF + t), p)
  {
    var s := line + (CRLF + t);
    if p < |line| {
      assert s[p] == line[p];
    } else {
      assert s[p] == 10;
    }
  }

  /** No gap begins inside a line, nor at its LF. */
  lemma LineStarts(line: Bytes, t: Bytes)
    requires Plain(line)
    ensures forall p :: GapAt(line + (CRLF + t), p) ==> p == |line| || (p >= |line| + 2 && GapAt(t, p - |line| - 2))
    ensures forall p :: p >= 0 && GapAt(t, p) ==> GapAt(line + (CRLF + t), p + |line| + 2)
  {
    var s := line + (CRLF + t);
    forall p: nat | p < |line| || p == |line| + 1 ensures !GapAt(s, p) {
      NotInLine(line, t, p);
    }
  }

  lemma LastLine(line: Bytes, rest: Bytes)
    requires Plain(line)
    ensures HeaderEnds(line + (CRLF + (CRLF + rest)), |line| + 4)
  {
    LineStarts(line, CRLF + rest);
    var s := line + (CRLF + (CRLF + rest));
    assert GapAt(s, |line|);
  }

  lemma LineShifts(line: Bytes, t: Bytes, n: nat)
    requires Plain(line) && HeaderEnds(t, n) && t[0] != 13
    ensures HeaderEnds(line + (CRLF + t), |line| + 2 + n)
  {
    LineStarts(line, t);
    var s := line + (CRLF + t);
    assert !GapAt(s, |line|) by { assert s[|line| + 2] == t[0]; }
    assert GapAt(s, |line| + 2 + n - 4) by { assert GapAt(t, n - 4); }
  }

  function Ascii(s: string): Bytes {
    seq(|s|, i requires 0 <= i < |s| => (s[i] as int % 256) as Byte)
  }

  /** What CONNECT asks for: the target, the Host field, and the line that carries credentials. */
  datatype Connect = Connect(target: Bytes, host: Bytes, credentials: Option<Bytes>)

  function ConnectLines(c: Connect): seq<Bytes> {
    [Ascii("CONNECT ") + c.target + Ascii(" HTTP/1.1"), Ascii("Host: ") + c.host]
    + (if c.credentials.Some? then [Ascii("Proxy-Authorization: Basic ") + c.credentials.value] else [])
    + [Ascii("Proxy-Connection: Keep-Alive")]
  }

  /** The check before the write: no CR and no LF in target and host. */
  predicate AuthorityOk(c: Connect) {
    13 !in c.target && 10 !in c.target && 13 !in c.host && 10 !in c.host
  }

  /** Base64 has neither. */
  predicate CredentialsOk(c: Connect) {
    c.credentials.Some? ==> 13 !in c.credentials.value
  }

  lemma TextIsPlain(s: string)
    requires s != "" && forall i :: 0 <= i < |s| ==> s[i] as int % 256 != 13
    ensures Plain(Ascii(s))
  {
  }

  lemma WordsArePlain()
    ensures Plain(Ascii("CONNECT ")) && Plain(Ascii(" HTTP/1.1")) && Plain(Ascii("Host: "))
  {
    hide Ascii, Plain;
    TextIsPlain("CONNECT ");
    TextIsPlain(" HTTP/1.1");
    TextIsPlain("Host: ");
  }

  lemma CredentialsArePlain()
    ensures Plain(Ascii("Proxy-Authorization: Basic "))
  {
    hide Ascii, Plain;
    TextIsPlain("Proxy-Authorization: Basic ");
  }

  lemma KeepAliveIsPlain()
    ensures Plain(Ascii("Proxy-Connection: Keep-Alive"))
  {
    hide Ascii, Plain;
    TextIsPlain("Proxy-Connection: Keep-Alive");
  }

  lemma PlainAppend(a: Bytes, b: Bytes)
    requires Plain(a) && 13 !in b
    ensures Plain(a + b)
  {
  }

  lemma ConnectIsPlain(c: Connect)
    requires AuthorityOk(c) && CredentialsOk(c)
    ensures forall i :: 0 <= i < |ConnectLines(c)| ==> Plain(ConnectLines(c)[i])
  {
    hide Ascii;
    WordsArePlain();
    CredentialsArePlain();
    KeepAliveIsPlain();
    PlainAppend(Ascii("CONNECT "), c.target);
    PlainAppend(Ascii("CONNECT ") + c.target, Ascii(" HTTP/1.1"));
    PlainAppend(Ascii("Host: "), c.host);
    if c.credentials.Some? {
      PlainAppend(Ascii("Proxy-Authorization: Basic "), c.credentials.value);
    }
  }

  /** Whatever target and host pass the check, a proxy that reads one header reads exactly this request: it
      cannot be made to contain a second one. */
  lemma RequestIsOneHeader(c: Connect, rest: Bytes)
    requires AuthorityOk(c) && CredentialsOk(c)
    ensures HeaderEnds(HeaderText(ConnectLines(c)) + rest, |HeaderText(ConnectLines(c))|)
  {
    hide Ascii, Plain;
    ConnectIsPlain(c);
    HeaderTextEnds(ConnectLines(c), rest);
  }

  // ----- CONNECT: what a proxy reads -----

  /** The text before the first CR LF. */
  function ReadLine(s: Bytes): (r: Option<Bytes>)
    ensures r.Some? ==> |r.value| + 2 <= |s|
  {
    if |s| < 2 then None
    else if s[0] == 13 && s[1] == 10 then Some([])
    else
      var rest := ReadLine(s[1..]);
      if rest.None? then None else Some([s[0]] + rest.value)
  }

  /** The lines of a header, up to the empty one. */
  function ReadLines(s: Bytes): Option<seq<Bytes>> {
    var line := ReadLine(s);
    if line.None? then None
    else if line.value == [] then Some([])
    else
      var rest := ReadLines(s[|line.value| + 2..]);
      if rest.None? then None else Some([line.value] + rest.value)
  }

  /** The value of the first line with this name. */
  function ReadField(lines: seq<Bytes>, name: Bytes): Option<Bytes> {
    if lines == [] then None
    else if name <= lines[0] then Some(lines[0][|name|..])
    else ReadField(lines[1..], name)
  }

  const METHOD := "CONNECT "
  const VERSION := " HTTP/1.1"

  /** A proxy that reads RFC 9110, section 9.3.6: the target of the request line, the Host field, and the Basic
      credentials. */
  function ReadConnect(s: Bytes): Option<Connect> {
    var lines := ReadLines(s);
    if lines.None? || lines.value == [] then None
    else
      var line := lines.value[0];
      var host := ReadField(lines.value[1..], Ascii("Host: "));
      if host.None? || |line| < |METHOD| + |VERSION| || !(Ascii(METHOD) <= line)
         || line[|line| - |VERSION|..] != Ascii(VERSION) then None
      else
        Some(Connect(line[|METHOD|..|line| - |VERSION|], host.value,
                     ReadField(lines.value[1..], Ascii("Proxy-Authorization: Basic "))))
  }

  lemma {:induction false} LineIsRead(line: Bytes, rest: Bytes)
    requires 13 !in line
    ensures ReadLine(line + CRLF + rest) == Some(line)
  {
    var s := line + CRLF + rest;
    if line != [] {
      LineIsRead(line[1..], rest);
      assert s[1..] == line[1..] + CRLF + rest;
      assert s[0] == line[0] && line[0] in line;
      assert [line[0]] + line[1..] == line;
    }
  }

  lemma {:induction false} LinesAreRead(lines: seq<Bytes>, rest: Bytes)
    requires forall i :: 0 <= i < |lines| ==> Plain(lines[i])
    ensures ReadLines(HeaderText(lines) + rest) == Some(lines)
  {
    hide ReadLine;
    if lines == [] {
      LineIsRead([], rest);
      assert HeaderText(lines) + rest == [] + CRLF + rest;
    } else {
      assert Plain(lines[0]);
      var more := HeaderText(lines[1..]) + rest;
      assert HeaderText(lines) + rest == lines[0] + CRLF + more;
      LineIsRead(lines[0], more);
      assert (lines[0] + CRLF + more)[|lines[0]| + 2..] == more;
      LinesAreRead(lines[1..], rest);
      assert lines[0] != [] && [lines[0]] + lines[1..] == lines;
    }
  }

  lemma FieldNames()
    ensures !(Ascii("Host: ") <= Ascii("Proxy-Connection: Keep-Alive"))
    ensures !(Ascii("Proxy-Authorization: Basic ") <= Ascii("Proxy-Connection: Keep-Alive"))
    ensures forall host :: !(Ascii("Proxy-Authorization: Basic ") <= Ascii("Host: ") + host)
  {
    assert Ascii("Host: ")[0] == 72 && Ascii("Proxy-Connection: Keep-Alive")[0] == 80;
    assert Ascii("Proxy-Authorization: Basic ")[6] == 65 && Ascii("Proxy-Connection: Keep-Alive")[6] == 67;
    forall host ensures !(Ascii("Proxy-Authorization: Basic ") <= Ascii("Host: ") + host) {
      assert (Ascii("Host: ") + host)[0] == 72 && Ascii("Proxy-Authorization: Basic ")[0] == 80;
    }
  }

  lemma FieldIsFirst(name: Bytes, value: Bytes, more: seq<Bytes>)
    ensures ReadField([name + value] + more, name) == Some(value)
  {
    assert (name + value)[|name|..] == value;
  }

  lemma FieldIsLater(line: Bytes, more: seq<Bytes>, name: Bytes)
    requires !(name <= line)
    ensures ReadField([line] + more, name) == ReadField(more, name)
  {
    assert ([line] + more)[1..] == more;
  }

  lemma NoField(line: Bytes, name: Bytes)
    requires !(name <= line)
    ensures ReadField([line], name) == None
  {
    assert [line][1..] == [];
  }

  lemma HostIsRead(c: Connect)
    ensures var lines := ConnectLines(c)[1..]; lines != [] && ReadField(lines, Ascii("Host: ")) == Some(c.host)
  {
    hide Ascii;
    var lines := ConnectLines(c)[1..];
    assert lines == [Ascii("Host: ") + c.host] + lines[1..];
    FieldIsFirst(Ascii("Host: "), c.host, lines[1..]);
  }

  lemma CredentialsAreRead(c: Connect)
    ensures ReadField(ConnectLines(c)[1..], Ascii("Proxy-Authorization: Basic ")) == c.credentials
  {
    hide Ascii, ReadField;
    FieldNames();
    var host, last := Ascii("Host: ") + c.host, Ascii("Proxy-Connection: Keep-Alive");
    var name := Ascii("Proxy-Authorization: Basic ");
    if c.credentials.Some? {
      var line := name + c.credentials.value;
      assert ConnectLines(c)[1..] == [host] + ([line] + [last]);
      FieldIsLater(host, [line] + [last], name);
      FieldIsFirst(name, c.credentials.value, [last]);
    } else {
      assert ConnectLines(c)[1..] == [host] + [last];
      FieldIsLater(host, [last], name);
      NoField(last, name);
    }
  }

  /** A proxy recovers from the request exactly the target, the host and the credentials that were asked for. */
  lemma ConnectRoundTrip(c: Connect, rest: Bytes)
    requires AuthorityOk(c) && CredentialsOk(c)
    ensures ReadConnect(HeaderText(ConnectLines(c)) + rest) == Some(c)
  {
    hide ReadLines, HeaderText, ReadField, Plain;
    ConnectIsPlain(c);
    LinesAreRead(ConnectLines(c), rest);
    HostIsRead(c);
    CredentialsAreRead(c);
    var line := Ascii(METHOD) + c.target + Ascii(VERSION);
    assert line[|METHOD|..|line| - |VERSION|] == c.target && line[|line| - |VERSION|..] == Ascii(VERSION);
    assert Ascii(METHOD) <= line by { assert line[..|METHOD|] == Ascii(METHOD); }
  }

  // ----- one hop, and two -----

  datatype Hop = Socks(login: Option<Login>, target: Option<Target>) | Http(connect: Connect)

  /** Is the response a valid one with status 200? */
  type Judge = Bytes -> bool

  /** What the client takes of a hop's answer, if it goes on through it. */
  ghost predicate HopTakes(hop: Hop, ok200: Judge, s: Bytes, n: nat) {
    match hop
    case Socks(login, target) => LoginOk(login) && TargetOk(target) && SocksReply(s, login.Some?) == Some(n)
    case Http(connect) => AuthorityOk(connect) && HeaderEnds(s, n) && n <= HEADER_LIMIT && n <= |s| && ok200(s[..n])
  }

  /** Operations that one hop needs at most. */
  const HOP_COST := HEADER_LIMIT + 8

  /** `tunnelProxy` without TLS: it goes on exactly if the hop's answer is one to go on with, on a connection
      that lasts, and then it has taken that answer and not one byte more. */
  method Tunnel(conn: Conn, hop: Hop, ok200: Judge) returns (ok: bool, ghost taken: nat)
    modifies conn
    ensures ok ==> HopTakes(hop, ok200, old(conn.inbox), taken) && taken <= |old(conn.inbox)|
                   && conn.inbox == old(conn.inbox)[taken..]
    ensures ok && hop.Http? ==> conn.sent == old(conn.sent) + HeaderText(ConnectLines(hop.connect))
    ensures ok && hop.Socks? ==> conn.sent == old(conn.sent) + SocksText(hop.login, hop.target.value)
    ensures old(conn.alive) >= HOP_COST && (exists n: nat :: HopTakes(hop, ok200, old(conn.inbox), n)) ==>
              ok && conn.alive >= old(conn.alive) - HOP_COST
  {
    taken := 0;
    match hop
    case Socks(login, target) =>
      hide LoginOk, TargetOk, SocksText;
      ghost var was := conn.inbox;
      ok := SocksConnect(conn, login, target);
      if ok {
        taken := SocksReply(was, login.Some?).value;
      }
    case Http(connect) =>
      ok, taken := TunnelHttp(conn, connect, ok200);
  }

  /** The CONNECT half of `tunnelProxy`. */
  method TunnelHttp(conn: Conn, connect: Connect, ok200: Judge) returns (ok: bool, ghost taken: nat)
    modifies conn
    ensures ok ==> HopTakes(Http(connect), ok200, old(conn.inbox), taken) && taken <= |old(conn.inbox)|
                   && conn.inbox == old(conn.inbox)[taken..]
    ensures ok ==> conn.sent == old(conn.sent) + HeaderText(ConnectLines(connect))
    ensures old(conn.alive) >= HOP_COST && (exists n: nat :: HopTakes(Http(connect), ok200, old(conn.inbox), n)) ==>
              ok && conn.alive >= old(conn.alive) - HOP_COST
  {
    hide ConnectLines, HeaderText, HeaderEnds;
    ghost var s := conn.inbox;
    if 13 in connect.target || 10 in connect.target || 13 in connect.host || 10 in connect.host {
      return false, 0;
    }
    ok := conn.Write(HeaderText(ConnectLines(connect)));
    if !ok {
      return false, 0;
    }
    assert conn.inbox == s;
    var header := ReadHeader(conn);
    if header.None? {
      return false, 0;
    }
    OnlyEnd(s, |header.value|);
    return ok200(header.value), |header.value|;
  }

  /** A stream has one header end. */
  lemma OnlyEnd(s: Bytes, n: int)
    requires HeaderEnds(s, n)
    ensures forall m :: HeaderEnds(s, m) ==> m == n
  {
    forall m | HeaderEnds(s, m) ensures m == n {
      assert GapAt(s, m - 4) && GapAt(s, n - 4);
    }
  }

  /** What a chain takes: the front proxy's answer, if there is one, and then the selected proxy's. */
  ghost predicate ChainTakes(front: Option<Hop>, hop: Hop, ok200: Judge, s: Bytes, first: nat, second: nat) {
    && first <= |s| && HopTakes(hop, ok200, s[first..], second)
    && if front.Some? then HopTakes(front.value, ok200, s, first) else first == 0
  }

  /** Both hops' answers are ones to go on with. */
  ghost predicate Passable(front: Option<Hop>, hop: Hop, ok200: Judge, s: Bytes) {
    exists first: nat, second: nat :: ChainTakes(front, hop, ok200, s, first, second)
  }

  /** The answers r1 and r2 of the hops, and the origin's bytes behind them. */
  ghost predicate Serves(front: Option<Hop>, hop: Hop, ok200: Judge, r1: Bytes, r2: Bytes) {
    Answers(hop, ok200, r2) && if front.Some? then Answers(front.value, ok200, r1) else r1 == []
  }

  /** What two answering hops leave of a stream. */
  lemma LeavesOrigin(front: Option<Hop>, hop: Hop, ok200: Judge, s: Bytes, r1: Bytes, r2: Bytes, origin: Bytes,
                     first: nat, second: nat)
    requires ChainTakes(front, hop, ok200, s, first, second) && first + second <= |s|
    ensures s == r1 + (r2 + origin) && Serves(front, hop, ok200, r1, r2) ==> s[first + second..] == origin
  {
    hide HopTakes;
    if s == r1 + (r2 + origin) && Serves(front, hop, ok200, r1, r2) {
      assert first == |r1|;
      assert s[first..] == r2 + origin;
      assert second == |r2|;
    }
  }

  /** The handshakes of `chainTransport`: through the front proxy, if there is one, and then the selected one.
      It succeeds whenever both hops' answers are ones to go on with, on a connection that lasts; and behind any
      two hops that answer with r1 and r2 exactly the origin's bytes are left. */
  method Chain(conn: Conn, front: Option<Hop>, hop: Hop, ok200: Judge,
               ghost r1: Bytes, ghost r2: Bytes, ghost origin: Bytes)
    returns (ok: bool, ghost first: nat, ghost second: nat)
    modifies conn
    ensures ok ==> ChainTakes(front, hop, ok200, old(conn.inbox), first, second)
    ensures ok ==> first + second <= |old(conn.inbox)| && conn.inbox == old(conn.inbox)[first + second..]
    ensures old(conn.alive) >= 2 * HOP_COST && Passable(front, hop, ok200, old(conn.inbox)) ==> ok
    ensures ok && old(conn.inbox) == r1 + (r2 + origin) && Serves(front, hop, ok200, r1, r2) ==> conn.inbox == origin
  {
    hide HopTakes, Serves;
    ghost var s := conn.inbox;
    first, second := 0, 0;
    if front.Some? {
      ok, first := Tunnel(conn, front.value, ok200);
      if ok {
        TakesOnce(front.value, ok200, s, first);
      } else {
        return;
      }
    }
    assert conn.inbox == s[first..];
    ok, second := Tunnel(conn, hop, ok200);
    if ok {
      assert s[first..][second..] == s[first + second..];
      LeavesOrigin(front, hop, ok200, s, r1, r2, origin, first, second);
    }
  }

  /** What a hop takes of a stream is determined. */
  lemma TakesOnce(hop: Hop, ok200: Judge, s: Bytes, n: nat)
    requires HopTakes(hop, ok200, s, n)
    ensures forall m: nat :: HopTakes(hop, ok200, s, m) ==> m == n
  {
    if hop.Http? { OnlyEnd(s, n); }
    hide SocksReply, HeaderEnds;
  }

  /** The hop answers with exactly r: the client takes r, whatever follows. */
  ghost predicate Answers(hop: Hop, ok200: Judge, r: Bytes) {
    forall tail: Bytes, n: nat :: HopTakes(hop, ok200, r + tail, n) ==> n == |r|
  }

  lemma SocksAnswers(login: Option<Login>, target: Option<Target>, ok200: Judge, reserved: Byte, bound: Addr,
                     port: Bytes)
    requires AddrOk(bound) && |port| == 2
    ensures var r := ServerSays(login.Some?, reserved, bound, port);
            && Answers(Socks(login, target), ok200, r)
            && (LoginOk(login) && TargetOk(target) ==>
                  forall tail: Bytes :: HopTakes(Socks(login, target), ok200, r + tail, |r|))
  {
    hide ServerSays, SocksReply, LoginOk, TargetOk;
    var r := ServerSays(login.Some?, reserved, bound, port);
    forall tail: Bytes ensures SocksReply(r + tail, login.Some?) == Some(|r|) {
      SocksReplyIsExact(login.Some?, reserved, bound, port, tail);
    }
  }

  lemma HttpAnswers(connect: Connect, ok200: Judge, lines: seq<Bytes>)
    requires lines != [] && forall i :: 0 <= i < |lines| ==> Plain(lines[i])
    ensures var r := HeaderText(lines);
            && Answers(Http(connect), ok200, r)
            && (AuthorityOk(connect) && |r| <= HEADER_LIMIT && ok200(r) ==>
                  forall tail: Bytes :: HopTakes(Http(connect), ok200, r + tail, |r|))
  {
    hide Plain, HeaderText, HeaderEnds, AuthorityOk;
    var r := HeaderText(lines);
    forall tail: Bytes ensures HeaderEnds(r + tail, |r|) && (r + tail)[..|r|] == r {
      HeaderTextEnds(lines, tail);
    }
    forall tail: Bytes, n: nat | HopTakes(Http(connect), ok200, r + tail, n) ensures n == |r| {
      OnlyEnd(r + tail, |r|);
    }
  }

  /** Through two hops of any kind, in either order: a chain whose hops answer r1 and r2 goes on, and takes
      exactly r1 and r2. */
  lemma ChainTakesAnswers(front: Option<Hop>, hop: Hop, ok200: Judge, r1: Bytes, r2: Bytes, origin: Bytes)
    requires Serves(front, hop, ok200, r1, r2)
    requires front.Some? ==> HopTakes(front.value, ok200, r1 + (r2 + origin), |r1|)
    requires HopTakes(hop, ok200, r2 + origin, |r2|)
    ensures ChainTakes(front, hop, ok200, r1 + (r2 + origin), |r1|, |r2|)
    ensures forall a: nat, b: nat :: ChainTakes(front, hop, ok200, r1 + (r2 + origin), a, b) ==> a == |r1| && b == |r2|
  {
    hide HopTakes;
    assert (r1 + (r2 + origin))[|r1|..] == r2 + origin;
  }
}
