/**
 The SOCKS5 client of the proxy bridge (`open_socks5_tunnel` of src/proxy_bridge.rs), against decoders
 written from section 5 of RFC 1928 and section 2 of RFC 1929.
 */
module Socks5 {
  import opened Wrappers
  import opened Wires

  datatype Credentials = Credentials(username: seq<Byte>, password: seq<Byte>)

  datatype Address = V4(octets: seq<Byte>) | V6(groups: seq<Byte>) | Domain(name: seq<Byte>)

  /** An address as the operating system or the request gives it. */
  predicate WellSized(a: Address) {
    (a.V4? ==> |a.octets| == 4) && (a.V6? ==> |a.groups| == 16)
  }

  datatype SocksError =
    | CredentialsTooLong
    | UnexpectedEnd
    | MethodsRejected
    | CredentialsRequired
    | AuthenticationFailed
    | UnsupportedMethod
    | TargetTooLong
    | LookupFailed
    | ConnectFailed(code: Byte)
    | BadAddressType

  /** The length checks of `proxy_credentials`; the decoding of the URL is not part of this model. */
  function CheckCredentials(username: seq<Byte>, password: seq<Byte>): (r: Result<Credentials, SocksError>)
    ensures r.Success? <==> |username| < 256 && |password| < 256
    ensures r.Success? ==> r.value.username == username && r.value.password == password
  {
    if |username| > 255 || |password| > 255 then Failure(CredentialsTooLong)
    else Success(Credentials(username, password))
  }

  predicate Checked(c: Credentials) {
    |c.username| <= 255 && |c.password| <= 255
  }

  // ---- what is sent -------------------------------------------------------------------------------

  /** `n as u8`. */
  function LowByte(n: nat): Byte {
    n % 256
  }

  function Greeting(credentials: Option<Credentials>): seq<Byte> {
    if credentials.Some? then [5, 2, 0, 2] else [5, 1, 0]
  }

  function AuthRequest(c: Credentials): seq<Byte> {
    [1, LowByte(|c.username|)] + c.username + [LowByte(|c.password|)] + c.password
  }

  function PortBytes(port: nat): seq<Byte>
    requires port <= 65535
  {
    [port / 256, port % 256]
  }

  /** `append_socks_target`, once an address has been settled on. */
  function AddressBytes(a: Address): seq<Byte> {
    match a
    case V4(octets) => [1] + octets
    case V6(groups) => [4] + groups
    case Domain(name) => [3, LowByte(|name|)] + name
  }

  function ConnectRequest(a: Address, port: nat): seq<Byte>
    requires port <= 65535
  {
    [5, 1, 0] + AddressBytes(a) + PortBytes(port)
  }

  /** The target as the code chooses it: a literal address, a name for the proxy, or a local lookup. */
  datatype TargetHost = TargetHost(name: seq<Byte>, literal: Option<Address>, lookedUp: Option<Address>)

  function ChooseAddress(host: TargetHost, remoteDns: bool): (r: Result<Address, SocksError>)
    ensures host.literal.Some? ==> r == Success(host.literal.value)
    ensures host.literal.None? && remoteDns ==>
              if |host.name| < 256 then r == Success(Domain(host.name)) else r == Failure(TargetTooLong)
    ensures host.literal.None? && !remoteDns ==>
              if host.lookedUp.Some? then r == Success(host.lookedUp.value) else r == Failure(LookupFailed)
  {
    if host.literal.Some? then Success(host.literal.value)
    else if remoteDns then
      if |host.name| > 255 then Failure(TargetTooLong) else Success(Domain(host.name))
    else if host.lookedUp.Some? then Success(host.lookedUp.value)
    else Failure(LookupFailed)
  }

  /** Literal and looked-up addresses are addresses of one of the two families. */
  predicate FromSystem(host: TargetHost) {
    && (host.literal.Some? ==> !host.literal.value.Domain? && WellSized(host.literal.value))
    && (host.lookedUp.Some? ==> !host.lookedUp.value.Domain? && WellSized(host.lookedUp.value))
  }

  // ---- reading it back, from the standards ----------------------------------------------------------

  /** A length-prefixed field and what follows it. */
  function TakeField(b: seq<Byte>): Option<(seq<Byte>, seq<Byte>)> {
    if b == [] then None
    else
      var n: nat := b[0];
      if |b| < 1 + n then None else Some((b[1..1 + n], b[1 + n..]))
  }

  /** Section 2 of RFC 1929: version 1, then two fields of 1 to 255 octets. */
  function DecodeAuth(b: seq<Byte>): Option<(Credentials, seq<Byte>)> {
    if b == [] || b[0] != 1 then None
    else match TakeField(b[1..])
      case None => None
      case Some((username, more)) =>
        match TakeField(more)
        case None => None
        case Some((password, rest)) =>
          if username == [] || password == [] then None else Some((Credentials(username, password), rest))
  }

  /** Section 5 of RFC 1928: an address type, then the address. */
  function DecodeAddress(b: seq<Byte>): Option<(Address, seq<Byte>)> {
    if b == [] then None
    else if b[0] == 1 then (if |b| < 5 then None else Some((V4(b[1..5]), b[5..])))
    else if b[0] == 4 then (if |b| < 17 then None else Some((V6(b[1..17]), b[17..])))
    else if b[0] == 3 then
      match TakeField(b[1..])
      case None => None
      case Some((name, rest)) => Some((Domain(name), rest))
    else None
  }

  function DecodePort(b: seq<Byte>): Option<(nat, seq<Byte>)> {
    if |b| < 2 then None else Some((256 * (b[0] as nat) + b[1] as nat, b[2..]))
  }

  /** Section 4 of RFC 1928: version 5, command CONNECT, a zero octet, address and port. */
  function DecodeConnect(b: seq<Byte>): Option<((Address, nat), seq<Byte>)> {
    if |b| < 3 || b[..3] != [5, 1, 0] then None
    else match DecodeAddress(b[3..])
      case None => None
      case Some((a, more)) =>
        match DecodePort(more)
        case None => None
        case Some((port, rest)) => Some(((a, port), rest))
  }

  /** Section 3 of RFC 1928: version 5 and the methods the client can use. */
  function DecodeGreeting(b: seq<Byte>): Option<(seq<Byte>, seq<Byte>)> {
    if b == [] || b[0] != 5 then None else TakeField(b[1..])
  }

  /** "No authentication" is always offered, "user name and password" exactly when there are some. */
  lemma GreetingOffers(credentials: Option<Credentials>, rest: seq<Byte>)
    ensures DecodeGreeting(Greeting(credentials) + rest)
         == Some((if credentials.Some? then [0, 2] else [0], rest))
  {
    var b := Greeting(credentials) + rest;
    if credentials.Some? {
      assert b[1..] == [2] + [0, 2] + rest;
      FieldReadsBack([0, 2], rest);
    } else {
      assert b[1..] == [1] + [0] + rest;
      FieldReadsBack([0], rest);
    }
  }

  lemma FieldReadsBack(field: seq<Byte>, rest: seq<Byte>)
    requires |field| <= 255
    ensures TakeField([LowByte(|field|)] + field + rest) == Some((field, rest))
  {
  }

  /**
   Credentials that passed the length checks are read back exactly when neither is empty: the checks
   let an empty user name or password through, which RFC 1929 has no encoding for.
   */
  lemma AuthReadsBackIff(c: Credentials, rest: seq<Byte>)
    requires Checked(c)
    ensures DecodeAuth(AuthRequest(c) + rest) == Some((c, rest)) <==> c.username != [] && c.password != []
    ensures DecodeAuth(AuthRequest(c) + rest).None? <==> c.username == [] || c.password == []
  {
    var tail := [LowByte(|c.password|)] + c.password + rest;
    var b := AuthRequest(c) + rest;
    assert b[1..] == [LowByte(|c.username|)] + c.username + tail;
    FieldReadsBack(c.username, tail);
    FieldReadsBack(c.password, rest);
  }

  /** `proxy_credentials` accepts such a pair: a user name without a password. */
  lemma EmptyPasswordIsAccepted()
    ensures var c := CheckCredentials([117], []);
            c.Success? && DecodeAuth(AuthRequest(c.value)).None?
  {
    var c := Credentials([117], []);
    AuthReadsBackIff(c, []);
    assert AuthRequest(c) + [] == AuthRequest(c);
  }

  lemma AddressReadsBack(a: Address, rest: seq<Byte>)
    requires WellSized(a) && (a.Domain? ==> |a.name| <= 255)
    ensures DecodeAddress(AddressBytes(a) + rest) == Some((a, rest))
  {
    var b := AddressBytes(a) + rest;
    match a
    case V4(octets) => assert b[1..5] == octets && b[5..] == rest;
    case V6(groups) => assert b[1..17] == groups && b[17..] == rest;
    case Domain(name) =>
      assert b[1..] == [LowByte(|name|)] + name + rest;
      FieldReadsBack(name, rest);
  }

  lemma PortReadsBack(port: nat, rest: seq<Byte>)
    requires port <= 65535
    ensures DecodePort(PortBytes(port) + rest) == Some((port, rest))
  {
  }

  /** The connect request says exactly which host and port were meant; no length is cut short. */
  lemma ConnectReadsBack(host: TargetHost, remoteDns: bool, port: nat, rest: seq<Byte>)
    requires FromSystem(host) && port <= 65535
    requires ChooseAddress(host, remoteDns).Success?
    ensures var a := ChooseAddress(host, remoteDns).value;
            && DecodeConnect(ConnectRequest(a, port) + rest) == Some(((a, port), rest))
            && (a.Domain? ==> a.name == host.name && host.literal.None? && remoteDns)
  {
    var a := ChooseAddress(host, remoteDns).value;
    var b := ConnectRequest(a, port) + rest;
    assert b[..3] == [5, 1, 0];
    assert b[3..] == AddressBytes(a) + (PortBytes(port) + rest);
    AddressReadsBack(a, PortBytes(port) + rest);
    PortReadsBack(port, rest);
  }

  /** A server reading by the standards recovers the credentials and then the target, with nothing left over. */
  lemma TranscriptReadsBack(c: Credentials, host: TargetHost, remoteDns: bool, port: nat)
    requires Checked(c) && c.username != [] && c.password != []
    requires FromSystem(host) && port <= 65535 && ChooseAddress(host, remoteDns).Success?
    ensures var a := ChooseAddress(host, remoteDns).value;
            match DecodeAuth(AuthRequest(c) + ConnectRequest(a, port))
            case Some((read, more)) => read == c && DecodeConnect(more) == Some(((a, port), []))
            case None => false
  {
    var a := ChooseAddress(host, remoteDns).value;
    AuthReadsBackIff(c, ConnectRequest(a, port));
    ConnectReadsBack(host, remoteDns, port, []);
    assert ConnectRequest(a, port) + [] == ConnectRequest(a, port);
  }

  // ---- what is received ---------------------------------------------------------------------------

  /** Length of a bound address of the given type at the head of `b`, its port included. */
  function BoundLength(addressType: Byte, b: seq<Byte>): Option<nat> {
    if addressType == 1 then Some(6)
    else if addressType == 4 then Some(18)
    else if addressType == 3 && b != [] then Some(1 + (b[0] as nat) + 2)
    else None
  }

  /** A method selection, 2 octets. */
  predicate Selects(b: seq<Byte>, m: Byte) {
    |b| >= 2 && b[0] == 5 && b[1] == m
  }

  predicate Authenticates(b: seq<Byte>) {
    |b| >= 4 && b[2] == 1 && b[3] == 0
  }

  /** Where the reply to CONNECT starts, if the server let the client get that far. */
  function ReplyStart(b: seq<Byte>, credentials: Option<Credentials>): Option<nat> {
    if Selects(b, 0) then Some(2)
    else if Selects(b, 2) && credentials.Some? && Authenticates(b) then Some(4)
    else None
  }

  /** Length of a reply of section 6 of RFC 1928 that grants the connection. */
  function ReplyLength(b: seq<Byte>): Option<nat> {
    if |b| < 4 || b[0] != 5 || b[1] != 0 then None
    else match BoundLength(b[3], b[4..])
      case None => None
      case Some(n) => if |b| < 4 + n then None else Some(4 + n)
  }

  /** Where the tunnel's own bytes start, if the server grants the connection. */
  function TunnelStart(b: seq<Byte>, credentials: Option<Credentials>): Option<nat> {
    match ReplyStart(b, credentials)
    case None => None
    case Some(n) =>
      match ReplyLength(b[n..])
      case None => None
      case Some(k) => Some(n + k)
  }

  /** The reply ends where an RFC decoder of its address and port ends. */
  lemma ReplyEndsAfterPort(b: seq<Byte>)
    requires |b| >= 4 && b[0] == 5 && b[1] == 0
    ensures match DecodeAddress(b[3..])
            case Some((a, more)) =>
              (match DecodePort(more)
               case Some((_, rest)) => ReplyLength(b) == Some(|b| - |rest|) && rest == b[|b| - |rest|..]
               case None => ReplyLength(b).None?)
            case None => ReplyLength(b).None?
  {
    assert b[3..][1..] == b[4..];
  }

  /** What a server says first: its choice of method, and its verdict on the credentials if it asks for some. */
  function ServerChooses(m: Byte, status: Byte): seq<Byte> {
    if m == 2 then [5, m, 1, status] else [5, m]
  }

  /** Its reply to CONNECT, of section 6 of RFC 1928. */
  function ServerReplies(reply: Byte, bound: Address, port: nat): seq<Byte>
    requires port <= 65535
  {
    [5, reply, 0] + AddressBytes(bound) + PortBytes(port)
  }

  lemma ChoiceIsAccepted(credentials: Option<Credentials>, m: Byte, status: Byte, rest: seq<Byte>)
    ensures ReplyStart(ServerChooses(m, status) + rest, credentials)
         == if m == 0 then Some(2) else if m == 2 && credentials.Some? && status == 0 then Some(4) else None
  {
    var b := ServerChooses(m, status) + rest;
    assert b[0] == 5 && b[1] == m;
    assert m == 2 ==> b[2] == 1 && b[3] == status;
  }

  lemma ReplyIsGranted(reply: Byte, bound: Address, port: nat, rest: seq<Byte>)
    requires WellSized(bound) && (bound.Domain? ==> |bound.name| <= 255) && port <= 65535
    ensures var r := ServerReplies(reply, bound, port);
            ReplyLength(r + rest) == if reply == 0 then Some(|r|) else None
  {
    var b := ServerReplies(reply, bound, port) + rest;
    if reply == 0 {
      assert b[3..] == AddressBytes(bound) + (PortBytes(port) + rest);
      AddressReadsBack(bound, PortBytes(port) + rest);
      PortReadsBack(port, rest);
      ReplyEndsAfterPort(b);
    }
  }

  /**
   The tunnel is granted if and only if the server takes no authentication or accepts the credentials it was sent,
   and its reply is 0; then it starts with the first byte after the reply.
   */
  lemma GrantedIff(credentials: Option<Credentials>, m: Byte, status: Byte, reply: Byte, bound: Address, port: nat,
                   rest: seq<Byte>)
    requires WellSized(bound) && (bound.Domain? ==> |bound.name| <= 255) && port <= 65535
    ensures var chosen, replied := ServerChooses(m, status), ServerReplies(reply, bound, port);
            TunnelStart(chosen + (replied + rest), credentials)
            == if (m == 0 || (m == 2 && credentials.Some? && status == 0)) && reply == 0
               then Some(|chosen| + |replied|) else None
  {
    var chosen, replied := ServerChooses(m, status), ServerReplies(reply, bound, port);
    ChoiceIsAccepted(credentials, m, status, replied + rest);
    ReplyIsGranted(reply, bound, port, rest);
    AfterChoice(chosen, replied + rest, credentials);
  }

  lemma AfterChoice(chosen: seq<Byte>, more: seq<Byte>, credentials: Option<Credentials>)
    requires var start := ReplyStart(chosen + more, credentials); start.Some? ==> start.value == |chosen|
    ensures TunnelStart(chosen + more, credentials)
         == if ReplyStart(chosen + more, credentials).None? || ReplyLength(more).None? then None
            else Some(|chosen| + ReplyLength(more).value)
  {
  }

  // ---- the handshake ------------------------------------------------------------------------------

  /** What has been written when the handshake stops. */
  datatype Progress = Greeted | SentCredentials | Requested

  /** `consume_socks_address`. */
  method ConsumeAddress(wire: Wire, addressType: Byte) returns (r: Result<(), SocksError>)
    modifies wire`incoming
    ensures var n := BoundLength(addressType, old(wire.incoming));
            if n.Some? && n.value <= |old(wire.incoming)| then
              r.Success? && wire.incoming == old(wire.incoming)[n.value..]
            else r.Failure?
  {
    var length: nat;
    ghost var before := wire.incoming;
    if addressType == 1 {
      length := 4;
    } else if addressType == 3 {
      var head := wire.ReadExact(1);
      if head.None? {
        return Failure(UnexpectedEnd);
      }
      length := head.value[0];
      assert |before| >= 3 + length ==> before[1..][length + 2..] == before[3 + length..];
    } else if addressType == 4 {
      length := 16;
    } else {
      return Failure(BadAddressType);
    }
    var rest := wire.ReadExact(length + 2);
    if rest.None? {
      return Failure(UnexpectedEnd);
    }
    return Success(());
  }

  /** The greeting, and the credentials if there are some and the server selected method 2. */
  function Opening(b: seq<Byte>, credentials: Option<Credentials>): seq<Byte> {
    if credentials.Some? && Selects(b, 2) then Greeting(credentials) + AuthRequest(credentials.value)
    else Greeting(credentials)
  }

  /** Method selection and, if asked for, authentication. */
  method Negotiate(wire: Wire, credentials: Option<Credentials>) returns (r: Result<(), SocksError>)
    modifies wire
    ensures var b := old(wire.incoming);
            && r.Success? == ReplyStart(b, credentials).Some?
            && (r.Success? ==> wire.incoming == b[ReplyStart(b, credentials).value..])
            && wire.sent == old(wire.sent) + Opening(b, credentials)
  {
    wire.WriteAll(Greeting(credentials));
    var method_ := wire.ReadExact(2);
    if method_.None? {
      return Failure(UnexpectedEnd);
    }
    if method_.value[0] != 5 || method_.value[1] == 0xff {
      return Failure(MethodsRejected);
    }
    if method_.value[1] == 2 {
      if credentials.None? {
        return Failure(CredentialsRequired);
      }
      wire.WriteAll(AuthRequest(credentials.value));
      ghost var middle := wire.incoming;
      var response := wire.ReadExact(2);
      if response.None? {
        return Failure(UnexpectedEnd);
      }
      assert response.value == [middle[0], middle[1]];
      if response.value != [1, 0] {
        return Failure(AuthenticationFailed);
      }
      return Success(());
    } else if method_.value[1] != 0 {
      return Failure(UnsupportedMethod);
    }
    return Success(());
  }

  /** The connect request and its reply. */
  method Request(wire: Wire, address: Address, port: nat) returns (r: Result<(), SocksError>)
    requires port <= 65535
    modifies wire
    ensures r.Success? <==> ReplyLength(old(wire.incoming)).Some?
    ensures r.Success? ==> wire.incoming == old(wire.incoming)[ReplyLength(old(wire.incoming)).value..]
    ensures wire.sent == old(wire.sent) + ConnectRequest(address, port)
  {
    wire.WriteAll(ConnectRequest(address, port));
    ghost var reply := wire.incoming;
    var response := wire.ReadExact(4);
    if response.None? {
      return Failure(UnexpectedEnd);
    }
    assert forall i :: 0 <= i < 4 ==> response.value[i] == reply[i];
    if response.value[0] != 5 || response.value[1] != 0 {
      return Failure(ConnectFailed(response.value[1]));
    }
    ghost var n := BoundLength(reply[3], reply[4..]);
    assert n.Some? && 4 + n.value <= |reply| ==> reply[4..][n.value..] == reply[4 + n.value..];
    r := ConsumeAddress(wire, response.value[3]);
  }

  lemma DropTwice<T>(b: seq<T>, n: nat, k: nat)
    requires n + k <= |b|
    ensures b[n..][k..] == b[n + k..]
  {
  }

  /** What the handshake writes, given what the server says. */
  function Written(b: seq<Byte>, credentials: Option<Credentials>, address: Result<Address, SocksError>, port: nat)
    : seq<Byte>
    requires port <= 65535
  {
    if ReplyStart(b, credentials).Some? && address.Success? then
      Opening(b, credentials) + ConnectRequest(address.value, port)
    else Opening(b, credentials)
  }

  /**
   `open_socks5_tunnel` over a connection to the proxy. It succeeds exactly when the server grants the
   connection and the target can be named, and then stops reading at the first byte of the tunnel.
   Credentials are written only if there are some and the server selected method 2.
   */
  method OpenTunnel(wire: Wire, credentials: Option<Credentials>, host: TargetHost, remoteDns: bool, port: nat)
    returns (r: Result<(), SocksError>)
    requires port <= 65535
    modifies wire
    ensures r.Success? <==> TunnelStart(old(wire.incoming), credentials).Some?
                            && ChooseAddress(host, remoteDns).Success?
    ensures r.Success? ==> wire.incoming == old(wire.incoming)[TunnelStart(old(wire.incoming), credentials).value..]
    ensures wire.sent == old(wire.sent)
                         + Written(old(wire.incoming), credentials, ChooseAddress(host, remoteDns), port)
  {
    ghost var b := wire.incoming;
    var address := ChooseAddress(host, remoteDns);
    r := Negotiate(wire, credentials);
    if r.Failure? {
      return;
    }
    ghost var start := ReplyStart(b, credentials).value;
    if address.Failure? {
      return Failure(address.error);
    }
    Reassociate(wire.sent[..|wire.sent| - |Opening(b, credentials)|], Opening(b, credentials),
                ConnectRequest(address.value, port));
    r := Request(wire, address.value, port);
    if r.Success? {
      DropTwice(b, start, ReplyLength(b[start..]).value);
    }
  }
}
