/** Printing and parsing `host:port` (`format_authority`, `parse_authority` of src/proxy_bridge.rs). */
module Authority {
  import opened Wrappers

  datatype AuthorityError = InvalidIpv6Authority | InvalidPort | EmptyHost

  // ---- ports --------------------------------------------------------------------------------------

  predicate IsDigit(c: char) {
    '0' <= c <= '9'
  }

  predicate AllDigits(s: string) {
    forall i :: 0 <= i < |s| ==> IsDigit(s[i])
  }

  function DecimalValue(s: string): nat
    requires AllDigits(s)
  {
    if s == "" then 0 else 10 * DecimalValue(s[..|s| - 1]) + (s[|s| - 1] as int - '0' as int)
  }

  /** Rust's `u16::from_str`: an optional plus sign, then digits that stay below 65536. */
  function ParsePort(s: string): Option<nat> {
    var digits := if s != "" && s[0] == '+' then s[1..] else s;
    if digits == "" || !AllDigits(digits) || DecimalValue(digits) > 65535 then None
    else Some(DecimalValue(digits))
  }

  function Decimal(n: nat): string {
    var digit := [(n % 10 + '0' as int) as char];
    if n < 10 then digit else Decimal(n / 10) + digit
  }

  lemma {:induction false} DecimalReadsBack(n: nat)
    ensures Decimal(n) != "" && AllDigits(Decimal(n)) && DecimalValue(Decimal(n)) == n
  {
    var s := Decimal(n);
    if n >= 10 {
      DecimalReadsBack(n / 10);
      assert s[..|s| - 1] == Decimal(n / 10);
    } else {
      assert s[..0] == "";
    }
  }

  lemma PortReadsBack(port: nat)
    requires port <= 65535
    ensures ParsePort(Decimal(port)) == Some(port)
  {
    DecimalReadsBack(port);
    assert Decimal(port)[0] != '+';
  }

  // ---- authorities --------------------------------------------------------------------------------

  predicate ClosesAt(s: string, i: nat) {
    i + 1 < |s| && s[i] == ']' && s[i + 1] == ':'
  }

  /** The first "]:" of a text. */
  function FirstClose(s: string, from: nat := 0): (k: Option<nat>)
    requires from <= |s|
    ensures k.Some? ==> from <= k.value && ClosesAt(s, k.value) && forall i :: from <= i < k.value ==> !ClosesAt(s, i)
    ensures k.None? ==> forall i :: from <= i ==> !ClosesAt(s, i)
    decreases |s| - from
  {
    if from == |s| then None else if ClosesAt(s, from) then Some(from) else FirstClose(s, from + 1)
  }

  /** The last colon of a text. */
  function LastColon(s: string): (k: Option<nat>)
    ensures k.Some? ==> k.value < |s| && s[k.value] == ':' && forall i :: k.value < i < |s| ==> s[i] != ':'
    ensures k.None? <==> ':' !in s
  {
    if s == "" then None
    else if s[|s| - 1] == ':' then Some(|s| - 1)
    else LastColon(s[..|s| - 1])
  }

  function ParseAuthority(authority: string, defaultPort: nat): Result<(string, nat), AuthorityError> {
    if authority != "" && authority[0] == '[' then
      var rest := authority[1..];
      match FirstClose(rest)
      case None => Failure(InvalidIpv6Authority)
      case Some(k) =>
        match ParsePort(rest[k + 2..])
        case None => Failure(InvalidPort)
        case Some(port) => Success((rest[..k], port))
    else match LastColon(authority)
      case Some(k) =>
        (match ParsePort(authority[k + 1..])
         case None => Failure(InvalidPort)
         case Some(port) => if k == 0 then Failure(EmptyHost) else Success((authority[..k], port)))
      case None => if authority == "" then Failure(EmptyHost) else Success((authority, defaultPort))
  }

  function FormatAuthority(host: string, port: nat): string {
    if ':' in host then "[" + host + "]:" + Decimal(port) else host + ":" + Decimal(port)
  }

  // ---- round trip ---------------------------------------------------------------------------------

  /** The hosts that survive printing. Every non-empty host without brackets is one of them. */
  predicate Printable(host: string) {
    if ':' in host then forall i :: 0 <= i < |host| ==> !ClosesAt(host, i)
    else host != "" && host[0] != '['
  }

  lemma BracketlessIsPrintable(host: string)
    requires host != "" && '[' !in host && ']' !in host
    ensures Printable(host)
  {
  }

  lemma FirstCloseIs(s: string, k: nat)
    requires ClosesAt(s, k) && forall i :: 0 <= i < k ==> !ClosesAt(s, i)
    ensures FirstClose(s) == Some(k)
  {
  }

  lemma LastColonIs(s: string, k: nat)
    requires k < |s| && s[k] == ':' && forall i :: k < i < |s| ==> s[i] != ':'
    ensures LastColon(s) == Some(k)
  {
  }

  lemma BracketedRoundTrip(host: string, port: nat, defaultPort: nat)
    requires ':' in host && port <= 65535
    ensures ParseAuthority(FormatAuthority(host, port), defaultPort) == Success((host, port)) <==> Printable(host)
  {
    var rest := host + "]:" + Decimal(port);
    assert FormatAuthority(host, port)[1..] == rest;
    assert ClosesAt(rest, |host|);
    assert rest[|host| + 2..] == Decimal(port) && rest[..|host|] == host;
    PortReadsBack(port);
    if Printable(host) {
      forall i | 0 <= i < |host| ensures !ClosesAt(rest, i) {
        assert ClosesAt(rest, i) ==> ClosesAt(host, i);
      }
      FirstCloseIs(rest, |host|);
    } else {
      var i :| 0 <= i < |host| && ClosesAt(host, i);
      assert ClosesAt(rest, i);
      assert FirstClose(rest).value <= i;
      assert |rest[..FirstClose(rest).value]| < |host|;
    }
  }

  lemma PlainRoundTrip(host: string, port: nat, defaultPort: nat)
    requires ':' !in host && port <= 65535 && !(host != "" && host[0] == '[')
    ensures ParseAuthority(FormatAuthority(host, port), defaultPort) == Success((host, port)) <==> host != ""
  {
    var a := host + ":" + Decimal(port);
    assert a[|host|] == ':' && a[|host| + 1..] == Decimal(port) && a[..|host|] == host;
    PortReadsBack(port);
    DecimalReadsBack(port);
    forall i | |host| < i < |a| ensures a[i] != ':' {
      assert a[i] == Decimal(port)[i - |host| - 1];
    }
    LastColonIs(a, |host|);
    assert host == "" ==> a[0] == ':';
  }

  lemma BracketIsMisread(host: string, port: nat, defaultPort: nat)
    requires ':' !in host && host != "" && host[0] == '['
    ensures ParseAuthority(FormatAuthority(host, port), defaultPort) != Success((host, port))
  {
    var a := host + ":" + Decimal(port);
    DecimalReadsBack(port);
    forall i | |host| < i < |a| ensures a[i] != ':' {
      assert a[i] == Decimal(port)[i - |host| - 1];
    }
    var k := FirstClose(a[1..]);
    if k.Some? {
      assert a[k.value + 2] == ':';
      assert |a[1..][..k.value]| < |host|;
    }
  }

  /** Printing then parsing gives the pair back exactly for the printable hosts, whatever the default port. */
  lemma RoundTripIff(host: string, port: nat, defaultPort: nat)
    requires port <= 65535
    ensures ParseAuthority(FormatAuthority(host, port), defaultPort) == Success((host, port)) <==> Printable(host)
  {
    if ':' in host {
      BracketedRoundTrip(host, port, defaultPort);
    } else if host != "" && host[0] == '[' {
      BracketIsMisread(host, port, defaultPort);
    } else {
      PlainRoundTrip(host, port, defaultPort);
    }
  }

  /** A host without a port gets the default one. */
  lemma DefaultPort(host: string, defaultPort: nat)
    requires host != "" && host[0] != '[' && ':' !in host
    ensures ParseAuthority(host, defaultPort) == Success((host, defaultPort))
  {
  }

  /** Ports may carry a plus sign, as Rust's integers may, and end at 65535. */
  lemma PortLimits(port: nat)
    ensures ParsePort(Decimal(port)) == if port <= 65535 then Some(port) else None
    ensures ParsePort("+" + Decimal(port)) == ParsePort(Decimal(port))
  {
    DecimalReadsBack(port);
    assert Decimal(port)[0] != '+';
    assert ("+" + Decimal(port))[1..] == Decimal(port);
  }

  /** A host that a client can send and that is not printable: parsed, printed and parsed again, it is not itself. */
  lemma ReceivedHostIsLost()
    ensures ParseAuthority("x]:y:80", 443) == Success(("x]:y", 80))
    ensures ParseAuthority(FormatAuthority("x]:y", 80), 443) != Success(("x]:y", 80))
  {
    var a := "x]:y:80";
    LastColonIs(a, 4);
    assert a[..4] == "x]:y" && a[5..] == Decimal(80);
    PortReadsBack(80);
    assert ClosesAt("x]:y", 1);
    RoundTripIff("x]:y", 80, 443);
  }

  /** What was parsed once, printed and parsed again, is the same pair, if its host is printable. */
  lemma ReparseIsStable(authority: string, defaultPort: nat, otherDefault: nat)
    requires defaultPort <= 65535 && ParseAuthority(authority, defaultPort).Success?
    requires Printable(ParseAuthority(authority, defaultPort).value.0)
    ensures var parsed := ParseAuthority(authority, defaultPort);
            ParseAuthority(FormatAuthority(parsed.value.0, parsed.value.1), otherDefault) == parsed
  {
    var parsed := ParseAuthority(authority, defaultPort).value;
    assert parsed.1 <= 65535;
    RoundTripIff(parsed.0, parsed.1, otherDefault);
  }
}
