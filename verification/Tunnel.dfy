/**
 `handle_client` and `open_http_tunnel` (src/proxy_bridge.rs): a CONNECT request answered through an
 upstream proxy.

 `utf8` decodes a head, `bytesOf` is `str::as_bytes`. Connecting to the proxy, the TLS layer and the
 20 second limit are not part of this model: `connected` says whether a connection was made.
 */
module Tunnel {
  import opened Wrappers
  import opened Text
  import opened EventLines
  import opened Authority
  import opened Wires
  import Socks5

  type Utf8 = seq<Byte> -> Option<string>

  const ESTABLISHED := "HTTP/1.1 200" + " Connection Established" + "\r\n\r\n"
  const METHOD_NOT_ALLOWED :=
    "HTTP/1.1 405" + " Method Not Allowed" + "\r\n" + "Connection: close\r\nContent-Length: 0\r\n\r\n"
  const BAD_GATEWAY := "HTTP/1.1 502" + " Bad Gateway" + "\r\n" + "Connection: close\r\n\r\n"

  // ---- first lines --------------------------------------------------------------------------------

  /** `lines().next()`: no line in an empty text; a carriage return before the break goes with it. */
  function FirstLine(s: string): Option<string> {
    if s == "" then None
    else match FirstBreak(s)
      case None => Some(s)
      case Some(p) => Some(if p > 0 && s[p - 1] == '\r' then s[..p - 1] else s[..p])
  }

  /** Length of the leading run of white (or of other) characters. */
  function RunLength(s: string, white: bool): (n: nat)
    ensures n <= |s| && (n < |s| ==> IsWhite(s[n]) != white)
    ensures forall i :: 0 <= i < n ==> IsWhite(s[i]) == white
  {
    if s == "" || IsWhite(s[0]) != white then 0 else 1 + RunLength(s[1..], white)
  }

  /** `split_whitespace`. */
  function Fields(s: string): seq<string>
    decreases |s|
  {
    var t := s[RunLength(s, true)..];
    if t == "" then []
    else
      var n := RunLength(t, false);
      [t[..n]] + Fields(t[n..])
  }

  /** `fields.nth(i).unwrap_or_default()`. */
  function Field(s: string, i: nat): string {
    if i < |Fields(s)| then Fields(s)[i] else ""
  }

  lemma {:induction false} FieldsHaveNoWhite(s: string)
    ensures forall f :: f in Fields(s) ==> f != "" && forall c :: c in f ==> !IsWhite(c)
    decreases |s|
  {
    var t := s[RunLength(s, true)..];
    if t != "" {
      FieldsHaveNoWhite(t[RunLength(t, false)..]);
    }
  }

  /** A run of characters without white space. */
  predicate Word(s: string) {
    s != "" && forall c :: c in s ==> !IsWhite(c)
  }

  lemma FirstLineIs(line: string, more: string)
    requires '\n' !in line
    ensures FirstLine(line + "\r\n" + more) == Some(line)
  {
    var s := line + "\r\n" + more;
    assert s == (line + "\r") + "\n" + more;
    BreakIsFirst(line + "\r", more);
    assert s[..|line|] == line;
  }

  lemma RunIs(s: string, white: bool, n: nat)
    requires n <= |s| && (forall i :: 0 <= i < n ==> IsWhite(s[i]) == white) && (n < |s| ==> IsWhite(s[n]) != white)
    ensures RunLength(s, white) == n
  {
  }

  /** A word at the head of a line is its first field. */
  lemma FieldsOfWord(w: string, rest: string)
    requires Word(w) && (rest == "" || IsWhite(rest[0]))
    ensures Fields(w + rest) == [w] + Fields(rest)
  {
    var s := w + rest;
    assert s[0] == w[0] && w[0] in w;
    RunIs(s, true, 0);
    assert s[0..] == s;
    forall i | 0 <= i < |w| ensures !IsWhite(s[i]) {
      assert s[i] == w[i] && w[i] in w;
    }
    RunIs(s, false, |w|);
    assert s[..|w|] == w && s[|w|..] == rest;
  }

  /** A space before a word is skipped. */
  lemma FieldsAfterSpace(s: string)
    requires s != "" && !IsWhite(s[0])
    ensures Fields(" " + s) == Fields(s)
  {
  }

  lemma FieldsOfTwoWords(a: string, t: string)
    requires Word(a) && t != "" && !IsWhite(t[0])
    ensures Fields(a + " " + t) == [a] + Fields(t)
  {
    assert a + " " + t == a + (" " + t);
    FieldsAfterSpace(t);
    FieldsOfWord(a, " " + t);
  }

  lemma FieldsOfThree(a: string, b: string, rest: string)
    requires Word(a) && Word(b) && (rest == "" || IsWhite(rest[0]))
    ensures Fields(a + " " + (b + rest)) == [a] + ([b] + Fields(rest))
  {
    assert (b + rest)[0] == b[0] && b[0] in b;
    FieldsOfWord(b, rest);
    FieldsOfTwoWords(a, b + rest);
  }

  lemma FirstTwoFields(a: string, b: string, rest: string)
    requires Word(a) && Word(b) && (rest == "" || IsWhite(rest[0]))
    ensures var line := a + " " + b + rest; Field(line, 0) == a && Field(line, 1) == b
  {
    var line := a + " " + b + rest;
    assert line == a + " " + (b + rest);
    var fields := [a] + ([b] + Fields(rest));
    assert Fields(line) == fields by {
      FieldsOfThree(a, b, rest);
    }
    assert fields[0] == a && fields[1] == b && |fields| >= 2;
  }

  // ---- the HTTP proxy -----------------------------------------------------------------------------

  predicate IsSuccess(head: seq<Byte>, utf8: Utf8) {
    match utf8(head)
    case None => false
    case Some(text) => FirstLine(text).Some? && Field(FirstLine(text).value, 1) == "200"
  }

  /** A reply head as HTTP proxies send it: version, status code, perhaps a reason, and then the headers. */
  predicate StatusHead(text: string, version: string, code: string, reason: string, more: string) {
    && Word(version) && Word(code) && (reason == "" || IsWhite(reason[0])) && '\n' !in reason
    && text == version + " " + code + reason + "\r\n" + more
  }

  lemma StatusOfHead(text: string, version: string, code: string, reason: string, more: string)
    requires StatusHead(text, version, code, reason, more)
    ensures FirstLine(text).Some? && Field(FirstLine(text).value, 1) == code
  {
    var line := version + " " + code + reason;
    assert IsWhite('\n');
    FirstLineIs(line, more);
    FirstTwoFields(version, code, reason);
  }

  /** What the proxy has to say begins with such a head. */
  predicate Says(b: seq<Byte>, utf8: Utf8, version: string, code: string, reason: string, more: string) {
    && HeadEnd(b).Some? && HeadEnd(b).value <= 65536 && utf8(b[..HeadEnd(b).value]).Some?
    && StatusHead(utf8(b[..HeadEnd(b).value]).value, version, code, reason, more)
  }

  /** The connection is granted if and only if the status is 200. */
  lemma GrantIff200(b: seq<Byte>, utf8: Utf8, version: string, code: string, reason: string, more: string)
    requires Says(b, utf8, version, code, reason, more)
    ensures HttpTunnelStart(b, utf8) == if code == "200" then HeadEnd(b) else None
  {
    StatusOfHead(utf8(b[..HeadEnd(b).value]).value, version, code, reason, more);
  }

  function ConnectText(authority: seq<Byte>, authorization: Option<seq<Byte>>): seq<Byte> {
    Ascii("CONNECT ") + authority + Ascii(" HTTP/1.1\r\nHost: ") + authority
    + Ascii("\r\nProxy-Connection: Keep-Alive\r\n")
    + (if authorization.Some? then Ascii("Proxy-Authorization: Basic ") + authorization.value + Ascii("\r\n") else [])
    + Ascii("\r\n")
  }

  /** Where the tunnel's own bytes start, if the proxy grants the connection. */
  function HttpTunnelStart(b: seq<Byte>, utf8: Utf8): Option<nat> {
    var e := HeadEnd(b);
    if e.Some? && e.value <= MAX_HEADER_SIZE && IsSuccess(b[..e.value], utf8) then e else None
  }

  datatype TunnelError =
    | BadReply(HeadError)
    | Rejected
    | UnexpectedTunnelData
    | Socks(Socks5.SocksError)

  /**
   `open_http_tunnel`. On success not a byte of the tunnel has been read; the only failure besides a
   refusal is a proxy that sent tunnel bytes which the reads happened to catch with its reply.
   */
  method OpenHttpTunnel(wire: Wire, authority: seq<Byte>, authorization: Option<seq<Byte>>, utf8: Utf8)
    returns (r: Result<(), TunnelError>)
    modifies wire
    ensures wire.sent == old(wire.sent) + ConnectText(authority, authorization)
    ensures r.Success? ==> HttpTunnelStart(old(wire.incoming), utf8).Some?
                           && wire.incoming == old(wire.incoming)[HttpTunnelStart(old(wire.incoming), utf8).value..]
    ensures r.Failure? ==> HttpTunnelStart(old(wire.incoming), utf8).None?
                           || (r.error == UnexpectedTunnelData
                               && HttpTunnelStart(old(wire.incoming), utf8).value < |old(wire.incoming)|)
  {
    ghost var b := wire.incoming;
    wire.WriteAll(ConnectText(authority, authorization));
    var read := ReadHttpHead(wire);
    if read.Failure? {
      return Failure(BadReply(read.error));
    }
    var (head, trailing) := read.value;
    assert b[|head|..] == trailing + wire.incoming;
    if !IsSuccess(head, utf8) {
      return Failure(Rejected);
    }
    if trailing != [] {
      return Failure(UnexpectedTunnelData);
    }
    return Success(());
  }

  // ---- one client ---------------------------------------------------------------------------------

  datatype Proxy =
    | HttpProxy(authorization: Option<seq<Byte>>)
    | Socks5Proxy(remoteDns: bool, credentials: Option<Socks5.Credentials>)

  /** What names resolve to: address literals and local lookups. */
  datatype Names = Names(bytesOf: string -> seq<Byte>, literal: string -> Option<Socks5.Address>,
                         lookUp: (string, nat) -> Option<Socks5.Address>)

  function HostFor(names: Names, host: string, port: nat): Socks5.TargetHost {
    Socks5.TargetHost(names.bytesOf(host), names.literal(host), names.lookUp(host, port))
  }

  /** The bytes written to the proxy before the tunnel, given what the proxy says. */
  function Handshake(proxy: Proxy, names: Names, host: string, port: nat, b: seq<Byte>): seq<Byte>
    requires port <= 65535
  {
    match proxy
    case HttpProxy(authorization) => ConnectText(names.bytesOf(FormatAuthority(host, port)), authorization)
    case Socks5Proxy(remoteDns, credentials) =>
      Socks5.Written(b, credentials, Socks5.ChooseAddress(HostFor(names, host, port), remoteDns), port)
  }

  function TunnelStart(proxy: Proxy, b: seq<Byte>, utf8: Utf8): Option<nat> {
    match proxy
    case HttpProxy(_) => HttpTunnelStart(b, utf8)
    case Socks5Proxy(_, credentials) => Socks5.TunnelStart(b, credentials)
  }

  /**
   The proxy grants the connection and leaves the client no way to fail. An HTTP proxy must not speak before
   the tunnel is made, or reads may catch its bytes; a SOCKS5 target must have an address or a name short
   enough.
   */
  predicate Grants(proxy: Proxy, names: Names, host: string, port: nat, b: seq<Byte>, utf8: Utf8) {
    match proxy
    case HttpProxy(_) => HttpTunnelStart(b, utf8) == Some(|b|)
    case Socks5Proxy(remoteDns, credentials) =>
      Socks5.TunnelStart(b, credentials).Some?
      && Socks5.ChooseAddress(HostFor(names, host, port), remoteDns).Success?
  }

  method OpenTunnel(upstream: Wire, proxy: Proxy, names: Names, host: string, port: nat, utf8: Utf8)
    returns (r: Result<(), TunnelError>)
    requires port <= 65535
    modifies upstream
    ensures upstream.sent == old(upstream.sent) + Handshake(proxy, names, host, port, old(upstream.incoming))
    ensures r.Success? ==>
              var start := TunnelStart(proxy, old(upstream.incoming), utf8);
              start.Some? && upstream.incoming == old(upstream.incoming)[start.value..]
    ensures Grants(proxy, names, host, port, old(upstream.incoming), utf8) ==> r.Success?
  {
    match proxy
    case HttpProxy(authorization) =>
      r := OpenHttpTunnel(upstream, names.bytesOf(FormatAuthority(host, port)), authorization, utf8);
    case Socks5Proxy(remoteDns, credentials) =>
      var tunnel := Socks5.OpenTunnel(upstream, credentials, HostFor(names, host, port), remoteDns, port);
      r := if tunnel.Success? then Success(()) else Failure(Socks(tunnel.error));
  }

  /** `copy_bidirectional`, run to the end of both directions. */
  method CopyBidirectional(a: Wire, b: Wire)
    requires a != b
    modifies a, b
    ensures b.sent == old(b.sent) + old(a.incoming) && a.sent == old(a.sent) + old(b.incoming)
    ensures a.incoming == [] && b.incoming == []
  {
    a.sent, b.sent := a.sent + b.incoming, b.sent + a.incoming;
    a.incoming, b.incoming := [], [];
  }

  datatype Outcome = Tunnelled(host: string, port: nat) | BadHead | BadAuthority | NotConnect | NoTunnel

  /** The request line of a head: its first line, if the head is text. */
  function RequestLine(head: seq<Byte>, utf8: Utf8): Option<string> {
    match utf8(head) case None => None case Some(text) => FirstLine(text)
  }

  /** What a CONNECT head asks for. */
  function Asked(head: seq<Byte>, utf8: Utf8): (r: Result<(string, nat), Outcome>)
    ensures r.Success? ==> r.value.1 <= 65535
    ensures r.Failure? ==> !r.error.Tunnelled?
  {
    match RequestLine(head, utf8)
    case None => Failure(BadHead)
    case Some(line) =>
      if Field(line, 0) != "CONNECT" then Failure(NotConnect)
      else match ParseAuthority(Field(line, 1), 443)
        case Failure(_) => Failure(BadAuthority)
        case Success(target) => Success(target)
  }

  /** The host put into the upstream's CONNECT head has no white space, so it cannot break a line there. */
  lemma AskedHostIsOneWord(head: seq<Byte>, utf8: Utf8)
    requires Asked(head, utf8).Success?
    ensures forall c :: c in Asked(head, utf8).value.0 ==> !IsWhite(c)
  {
    var line := RequestLine(head, utf8).value;
    FieldHasNoWhite(line, 1);
    ParsedHostIsPart(Field(line, 1), 443);
  }

  lemma FieldHasNoWhite(s: string, i: nat)
    ensures forall c :: c in Field(s, i) ==> !IsWhite(c)
  {
    FieldsHaveNoWhite(s);
    if i < |Fields(s)| {
      assert Fields(s)[i] in Fields(s);
    }
  }

  lemma ParsedHostIsPart(authority: string, defaultPort: nat)
    requires ParseAuthority(authority, defaultPort).Success?
    ensures forall c :: c in ParseAuthority(authority, defaultPort).value.0 ==> c in authority
  {
  }

  /** The request line of a client: method, target, version. */
  predicate RequestHead(text: string, verb: string, target: string, version: string, more: string) {
    && Word(verb) && Word(target) && '\n' !in version
    && text == verb + " " + target + " " + version + "\r\n" + more
  }

  /** A CONNECT asks for its target, with port 443 where it names none; any other method is refused. */
  lemma AskedIsTarget(head: seq<Byte>, utf8: Utf8, verb: string, target: string, version: string, more: string)
    requires utf8(head).Some? && RequestHead(utf8(head).value, verb, target, version, more)
    ensures verb != "CONNECT" ==> Asked(head, utf8) == Failure(NotConnect)
    ensures verb == "CONNECT" ==>
              match ParseAuthority(target, 443)
              case Success(pair) => Asked(head, utf8) == Success(pair)
              case Failure(_) => Asked(head, utf8) == Failure(BadAuthority)
  {
    var line := verb + " " + target + " " + version;
    assert IsWhite('\n');
    FirstLineIs(line, more);
    assert line == verb + " " + target + (" " + version);
    FirstTwoFields(verb, target, " " + version);
  }

  /** So a client that asks for a printable host and a port, as it should write them, gets a tunnel to that pair. */
  lemma AskedIsWhatWasMeant(head: seq<Byte>, utf8: Utf8, host: string, port: nat, version: string, more: string)
    requires Printable(host) && port <= 65535
    requires utf8(head).Some?
             && RequestHead(utf8(head).value, "CONNECT", FormatAuthority(host, port), version, more)
    ensures Asked(head, utf8) == Success((host, port))
  {
    RoundTripIff(host, port, 443);
    AskedIsTarget(head, utf8, "CONNECT", FormatAuthority(host, port), version, more);
  }

  /** What the client reads as the status of the three answers. */
  lemma EstablishedSays200()
    ensures StatusHead(ESTABLISHED, "HTTP/1.1", "200", " Connection Established", "\r\n")
  {
    assert "HTTP/1.1 200" == "HTTP/1.1" + " " + "200" && "\r\n\r\n" == "\r\n" + "\r\n";
  }

  lemma NotAllowedSays405()
    ensures StatusHead(METHOD_NOT_ALLOWED, "HTTP/1.1", "405", " Method Not Allowed",
                       "Connection: close\r\nContent-Length: 0\r\n\r\n")
  {
    assert "HTTP/1.1 405" == "HTTP/1.1" + " " + "405";
  }

  lemma BadGatewaySays502()
    ensures StatusHead(BAD_GATEWAY, "HTTP/1.1", "502", " Bad Gateway", "Connection: close\r\n\r\n")
  {
    assert "HTTP/1.1 502" == "HTTP/1.1" + " " + "502";
  }

  /** What a client's stream asks for, however its bytes arrive. */
  function AskedBy(b: seq<Byte>, utf8: Utf8): (r: Result<(string, nat), Outcome>)
    ensures r.Success? ==> r.value.1 <= 65535
    ensures r.Failure? ==> !r.error.Tunnelled?
  {
    var e := HeadEnd(b);
    if e.None? || e.value > MAX_HEADER_SIZE then Failure(BadHead) else Asked(b[..e.value], utf8)
  }

  /** What the client is told when there is no tunnel. */
  function Refusal(outcome: Outcome): seq<Byte> {
    match outcome
    case NotConnect => Ascii(METHOD_NOT_ALLOWED)
    case NoTunnel => Ascii(BAD_GATEWAY)
    case _ => []
  }

  /**
   Byte conservation. If a tunnel is made: the upstream receives its handshake and then exactly the
   client's stream after the request head, and the client receives the 200 line and then exactly what
   follows the proxy's handshake reply. If none is made, the client is told why, no byte of its stream goes
   upstream and no byte of the upstream's reaches it.
   */
  method HandleClient(client: Wire, upstream: Wire, connected: bool, proxy: Proxy, names: Names, utf8: Utf8)
    returns (outcome: Outcome)
    requires client != upstream
    modifies client, upstream
    ensures match AskedBy(old(client.incoming), utf8)
            case Failure(refused) =>
              outcome == refused && upstream.sent == old(upstream.sent)
              && client.sent == old(client.sent) + Refusal(refused)
            case Success((host, port)) =>
              && outcome in {Tunnelled(host, port), NoTunnel}
              && (!connected ==> outcome == NoTunnel && upstream.sent == old(upstream.sent))
              && (connected && Grants(proxy, names, host, port, old(upstream.incoming), utf8) ==> outcome.Tunnelled?)
              && (outcome.NoTunnel? ==>
                    && client.sent == old(client.sent) + Refusal(NoTunnel)
                    && (connected ==> upstream.sent == old(upstream.sent)
                                      + Handshake(proxy, names, host, port, old(upstream.incoming))))
    ensures outcome.Tunnelled? ==>
      var head := HeadEnd(old(client.incoming)).value;
      var start := TunnelStart(proxy, old(upstream.incoming), utf8);
      && start.Some? && outcome.port <= 65535
      && upstream.sent == old(upstream.sent)
                          + Handshake(proxy, names, outcome.host, outcome.port, old(upstream.incoming))
                          + old(client.incoming)[head..]
      && client.sent == old(client.sent) + Ascii(ESTABLISHED) + old(upstream.incoming)[start.value..]
    ensures forall version, code, reason, more ::
      proxy.HttpProxy? && Says(old(upstream.incoming), utf8, version, code, reason, more) ==>
        && (code != "200" ==> !outcome.Tunnelled?)
        && ((code == "200" && connected && HeadEnd(old(upstream.incoming)) == Some(|old(upstream.incoming)|)
             && AskedBy(old(client.incoming), utf8).Success?) ==> outcome.Tunnelled?)
  {
    ghost var cin, uin := client.incoming, upstream.incoming;
    forall version, code, reason, more | Says(uin, utf8, version, code, reason, more)
      ensures HttpTunnelStart(uin, utf8) == if code == "200" then HeadEnd(uin) else None
    {
      GrantIff200(uin, utf8, version, code, reason, more);
    }
    var read := ReadHttpHead(client);
    if read.Failure? {
      return BadHead;
    }
    var (head, trailing) := read.value;
    assert cin[|head|..] == trailing + client.incoming;
    var asked := Asked(head, utf8);
    if asked.Failure? {
      if asked.error.NotConnect? {
        client.WriteAll(Ascii(METHOD_NOT_ALLOWED));
      }
      return asked.error;
    }
    var (host, port) := asked.value;
    if !connected {
      client.WriteAll(Ascii(BAD_GATEWAY));
      return NoTunnel;
    }
    var tunnel := OpenTunnel(upstream, proxy, names, host, port, utf8);
    if tunnel.Failure? {
      client.WriteAll(Ascii(BAD_GATEWAY));
      return NoTunnel;
    }
    client.WriteAll(Ascii(ESTABLISHED));
    ghost var sent := upstream.sent;
    if trailing != [] {
      upstream.WriteAll(trailing);
    }
    assert upstream.sent == sent + trailing;
    Reassociate(sent, trailing, client.incoming);
    CopyBidirectional(client, upstream);
    return Tunnelled(host, port);
  }
}
