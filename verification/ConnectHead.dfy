/**
 A reader of the CONNECT head that `open_http_tunnel` (src/proxy_bridge.rs) sends, from section 9.3.6 of RFC 9110
 and sections 2 and 5 of RFC 9112.
 */
module ConnectHead {
  import opened Wrappers
  import opened Wires
  import opened Authority
  import opened Tunnel
  import Socks5

  const CRLF: seq<Byte> := [13, 10]

  /** A line and what follows its CR LF. */
  function TakeLine(b: seq<Byte>): (r: Option<(seq<Byte>, seq<Byte>)>)
    ensures r.Some? ==> |r.value.1| < |b|
  {
    if |b| < 2 then None
    else if b[0] == 13 && b[1] == 10 then Some(([], b[2..]))
    else match TakeLine(b[1..])
      case None => None
      case Some((line, rest)) => Some(([b[0]] + line, rest))
  }

  /** The lines up to the empty one, and what follows it. */
  function TakeHead(b: seq<Byte>): Option<(seq<seq<Byte>>, seq<Byte>)>
    decreases |b|
  {
    match TakeLine(b)
    case None => None
    case Some((line, rest)) =>
      if line == [] then Some(([], rest))
      else match TakeHead(rest)
        case None => None
        case Some((lines, after)) => Some(([line] + lines, after))
  }

  /** The value of the first header line that starts with `name`. */
  function Header(lines: seq<seq<Byte>>, name: seq<Byte>): Option<seq<Byte>> {
    if lines == [] then None
    else if |name| <= |lines[0]| && lines[0][..|name|] == name then Some(lines[0][|name|..])
    else Header(lines[1..], name)
  }

  lemma {:induction false} LineIsTaken(line: seq<Byte>, rest: seq<Byte>)
    requires 13 !in line
    ensures TakeLine(line + CRLF + rest) == Some((line, rest))
  {
    var s := line + CRLF + rest;
    if line == [] {
      assert s[0] == 13 && s[1] == 10 && s[2..] == rest;
    } else {
      assert s[0] == line[0] && line[0] in line;
      assert s[1..] == line[1..] + CRLF + rest;
      LineIsTaken(line[1..], rest);
      assert [line[0]] + line[1..] == line;
    }
  }

  function Unhead(lines: seq<seq<Byte>>): seq<Byte> {
    if lines == [] then CRLF else lines[0] + CRLF + Unhead(lines[1..])
  }

  lemma {:induction false} HeadIsTaken(lines: seq<seq<Byte>>, rest: seq<Byte>)
    requires forall l :: l in lines ==> Proper(l)
    ensures TakeHead(Unhead(lines) + rest) == Some((lines, rest))
  {
    if lines == [] {
      LineIsTaken([], rest);
      assert Unhead(lines) + rest == [] + CRLF + rest;
    } else {
      assert forall l :: l in lines[1..] ==> l in lines;
      HeadIsTaken(lines[1..], rest);
      assert lines[0] in lines;
      assert Unhead(lines) + rest == lines[0] + CRLF + (Unhead(lines[1..]) + rest);
      LineIsTaken(lines[0], Unhead(lines[1..]) + rest);
      assert lines == [lines[0]] + lines[1..];
    }
  }

  /** The lines of the head that is sent. */
  function ConnectLines(authority: seq<Byte>, authorization: Option<seq<Byte>>): seq<seq<Byte>> {
    [Ascii("CONNECT ") + authority + Ascii(" HTTP/1.1"), Ascii("Host: ") + authority,
     Ascii("Proxy-Connection: Keep-Alive")]
    + if authorization.Some? then [Ascii("Proxy-Authorization: Basic ") + authorization.value] else []
  }

  lemma AsciiJoins(a: string, b: string)
    ensures Ascii(a + b) == Ascii(a) + Ascii(b)
  {
  }

  lemma AsciiCrLf()
    ensures Ascii("\r\n") == CRLF
  {
  }

  lemma UnheadCons(line: seq<Byte>, more: seq<seq<Byte>>)
    ensures Unhead([line] + more) == line + CRLF + Unhead(more)
  {
  }

  lemma HostPiece()
    ensures Ascii(" HTTP/1.1\r\nHost: ") == Ascii(" HTTP/1.1") + CRLF + Ascii("Host: ")
  {
    AsciiCrLf();
    assert " HTTP/1.1\r\nHost: " == " HTTP/1.1" + "\r\n" + "Host: ";
    AsciiJoins(" HTTP/1.1" + "\r\n", "Host: ");
    AsciiJoins(" HTTP/1.1", "\r\n");
  }

  lemma KeptPiece()
    ensures Ascii("\r\nProxy-Connection: Keep-Alive\r\n") == CRLF + Ascii("Proxy-Connection: Keep-Alive") + CRLF
  {
    AsciiCrLf();
    assert "\r\nProxy-Connection: Keep-Alive\r\n" == "\r\n" + "Proxy-Connection: Keep-Alive" + "\r\n";
    AsciiJoins("\r\n" + "Proxy-Connection: Keep-Alive", "\r\n");
    AsciiJoins("\r\n", "Proxy-Connection: Keep-Alive");
  }

  /** Three lines, an optional fourth and the empty one, run together. */
  lemma Assembled(verb: seq<Byte>, version: seq<Byte>, host: seq<Byte>, kept: seq<Byte>, a: seq<Byte>,
                  more: seq<seq<Byte>>)
    ensures Unhead([verb + a + version, host + a, kept] + more)
         == verb + a + (version + CRLF + host) + a + (CRLF + kept + CRLF) + Unhead(more)
  {
    assert [verb + a + version, host + a, kept] + more
        == [verb + a + version] + ([host + a] + ([kept] + more));
    UnheadCons(verb + a + version, [host + a] + ([kept] + more));
    UnheadCons(host + a, [kept] + more);
    UnheadCons(kept, more);
  }

  lemma ConnectTextIsLines(authority: seq<Byte>, authorization: Option<seq<Byte>>)
    ensures ConnectText(authority, authorization) == Unhead(ConnectLines(authority, authorization))
  {
    HostPiece();
    KeptPiece();
    AsciiCrLf();
    var name := Ascii("Proxy-Authorization: Basic ");
    var more := if authorization.Some? then [name + authorization.value] else [];
    assert Unhead([]) == CRLF;
    if authorization.Some? {
      UnheadCons(name + authorization.value, []);
      assert more + [] == more;
    }
    Assembled(Ascii("CONNECT "), Ascii(" HTTP/1.1"), Ascii("Host: "), Ascii("Proxy-Connection: Keep-Alive"), authority,
              more);
  }

  lemma HasNoCr(s: string)
    requires forall c :: c in s ==> c != '\r' && (c as int) < 128
    ensures 13 !in Ascii(s)
  {
    forall i | 0 <= i < |s| ensures Ascii(s)[i] != 13 {
      assert s[i] in s;
    }
  }

  predicate Proper(line: seq<Byte>) {
    line != [] && 13 !in line
  }

  lemma ProperLine(name: string, value: seq<Byte>, rest: string)
    requires name != "" && 13 !in value
    requires forall c :: c in name || c in rest ==> c != '\r' && (c as int) < 128
    ensures Proper(Ascii(name) + value + Ascii(rest)) && Proper(Ascii(name) + value) && Proper(Ascii(name))
  {
    HasNoCr(name);
    HasNoCr(rest);
  }

  lemma NoCrInLines(authority: seq<Byte>, authorization: Option<seq<Byte>>)
    requires 13 !in authority && (authorization.Some? ==> 13 !in authorization.value)
    ensures forall l :: l in ConnectLines(authority, authorization) ==> Proper(l)
  {
    var lines := ConnectLines(authority, authorization);
    ProperLine("CONNECT ", authority, " HTTP/1.1");
    ProperLine("Host: ", authority, "");
    ProperLine("Proxy-Connection: Keep-Alive", [], "");
    assert Proper(lines[0]) && Proper(lines[1]) && Proper(lines[2]);
    if authorization.Some? {
      ProperLine("Proxy-Authorization: Basic ", authorization.value, "");
      assert Proper(lines[3]);
    }
  }

  /**
   A reader of the head that is sent recovers the request line with the authority, the same authority as host, and
   the credentials exactly when there are some; what follows is the tunnel.
   */
  lemma ConnectReadsBack(authority: seq<Byte>, authorization: Option<seq<Byte>>, rest: seq<Byte>)
    requires 13 !in authority && (authorization.Some? ==> 13 !in authorization.value)
    ensures match TakeHead(ConnectText(authority, authorization) + rest)
            case None => false
            case Some((lines, after)) =>
              && lines != [] && lines[0] == Ascii("CONNECT ") + authority + Ascii(" HTTP/1.1")
              && Header(lines[1..], Ascii("Host: ")) == Some(authority)
              && Header(lines[1..], Ascii("Proxy-Authorization: Basic ")) == authorization
              && after == rest
  {
    var lines := ConnectLines(authority, authorization);
    ConnectTextIsLines(authority, authorization);
    NoCrInLines(authority, authorization);
    HeadIsTaken(lines, rest);
    HeadersOfConnect(authority, authorization);
  }

  lemma HeadersOfConnect(authority: seq<Byte>, authorization: Option<seq<Byte>>)
    ensures var headers := ConnectLines(authority, authorization)[1..];
            && Header(headers, Ascii("Host: ")) == Some(authority)
            && Header(headers, Ascii("Proxy-Authorization: Basic ")) == authorization
  {
    var headers := ConnectLines(authority, authorization)[1..];
    var host, kept, name := Ascii("Host: "), Ascii("Proxy-Connection: Keep-Alive"), Ascii("Proxy-Authorization: Basic ");
    var more := if authorization.Some? then [name + authorization.value] else [];
    assert headers == [host + authority] + ([kept] + more);
    assert (host + authority)[..6] == host && (host + authority)[6..] == authority;
    assert (host + authority)[0] == 72 && name[0] == 80;
    assert kept[6] == 67 && name[6] == 65;
    HeaderSkips(host + authority, [kept] + more, name, 0);
    HeaderSkips(kept, more, name, 6);
    if authorization.Some? {
      assert (name + authorization.value)[..|name|] == name;
      assert (name + authorization.value)[|name|..] == authorization.value;
    }
  }

  lemma HeaderSkips(line: seq<Byte>, lines: seq<seq<Byte>>, name: seq<Byte>, i: nat)
    requires i < |name| && i < |line| && line[i] != name[i]
    ensures Header([line] + lines, name) == Header(lines, name)
  {
  }

  /** What a proxy reads before the tunnel: an HTTP proxy the host and port as the client named them. */
  lemma HttpHandshakeReadsBack(authorization: Option<seq<Byte>>, names: Names, host: string, port: nat, said: seq<Byte>,
                               rest: seq<Byte>)
    requires port <= 65535 && ':' !in host && (authorization.Some? ==> 13 !in authorization.value)
    requires 13 !in names.bytesOf(host + ":" + Decimal(port))
    ensures match TakeHead(Handshake(HttpProxy(authorization), names, host, port, said) + rest)
            case None => false
            case Some((lines, after)) =>
              && lines != [] && after == rest
              && lines[0] == Ascii("CONNECT ") + names.bytesOf(host + ":" + Decimal(port)) + Ascii(" HTTP/1.1")
              && Header(lines[1..], Ascii("Proxy-Authorization: Basic ")) == authorization
  {
    ConnectReadsBack(names.bytesOf(host + ":" + Decimal(port)), authorization, rest);
  }

  /** A SOCKS5 proxy that asks for no credentials reads the address or the name, and the port. */
  lemma SocksHandshakeReadsBack(remoteDns: bool, credentials: Option<Socks5.Credentials>, names: Names, host: string,
                                port: nat, said: seq<Byte>)
    requires port <= 65535 && Socks5.Selects(said, 0)
    requires Socks5.FromSystem(HostFor(names, host, port))
    requires Socks5.ChooseAddress(HostFor(names, host, port), remoteDns).Success?
    ensures var sent := Handshake(Socks5Proxy(remoteDns, credentials), names, host, port, said);
            match Socks5.DecodeGreeting(sent)
            case None => false
            case Some((methods, more)) =>
              && 0 in methods && (2 in methods <==> credentials.Some?)
              && match Socks5.DecodeConnect(more)
                 case None => false
                 case Some((target, after)) =>
                   && after == [] && target.1 == port
                   && (match names.literal(host)
                       case Some(address) => target.0 == address
                       case None =>
                         if remoteDns then target.0 == Socks5.Domain(names.bytesOf(host))
                         else Some(target.0) == names.lookUp(host, port))
  {
    var target := HostFor(names, host, port);
    var address := Socks5.ChooseAddress(target, remoteDns).value;
    var request := Socks5.ConnectRequest(address, port);
    Socks5.GreetingOffers(credentials, request);
    Socks5.ConnectReadsBack(target, remoteDns, port, []);
    assert request + [] == request;
    assert Handshake(Socks5Proxy(remoteDns, credentials), names, host, port, said)
        == Socks5.Greeting(credentials) + request;
  }
}
