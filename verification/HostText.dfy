/** The text form of host information: printing and parsing through three levels of separators. */
module HostText {
  import opened Options

  // --- Strings ---------------------------------------------------------------------------

  predicate Space(c: char) { c == ' ' || 9 <= c as int <= 13 }

  predicate Blank(s: string) { forall c <- s :: Space(c) }

  /** Up to, and after, the first `c`. */
  function Before(s: string, c: char): (b: string)
    ensures c !in b && |b| <= |s| && s[..|b|] == b
    ensures c in s ==> |b| < |s| && s[|b|] == c
  {
    if s == "" || s[0] == c then "" else [s[0]] + Before(s[1..], c)
  }

  function After(s: string, c: char): string
    requires c in s
  {
    s[|Before(s, c)| + 1..]
  }

  lemma {:induction false} BeforeIs(a: string, c: char, b: string)
    requires c !in a
    ensures c in a + [c] + b && Before(a + [c] + b, c) == a && After(a + [c] + b, c) == b
  {
    if a != "" {
      BeforeIs(a[1..], c, b);
      assert (a + [c] + b)[1..] == a[1..] + [c] + b;
    }
  }

  /** absl::StrSplit at every `c`, and at the first `n` of them only. */
  function Split(s: string, c: char): (ps: seq<string>)
    ensures ps != []
    decreases |s|
  {
    if c !in s then [s] else [Before(s, c)] + Split(After(s, c), c)
  }

  function SplitMax(s: string, c: char, n: nat): (ps: seq<string>)
    ensures 1 <= |ps| <= n + 1
  {
    if n == 0 || c !in s then [s] else [Before(s, c)] + SplitMax(After(s, c), c, n - 1)
  }

  /** SkipWhitespace: blank pieces are left out. */
  function Kept(ps: seq<string>): (ks: seq<string>)
    ensures |ks| <= |ps|
  {
    if ps == [] then [] else (if Blank(ps[0]) then [] else [ps[0]]) + Kept(ps[1..])
  }

  lemma {:induction false} KeptAll(ps: seq<string>)
    ensures (forall p <- ps :: !Blank(p)) ==> Kept(ps) == ps
    ensures |Kept(ps)| == |ps| ==> Kept(ps) == ps && forall p <- ps :: !Blank(p)
    ensures forall p <- Kept(ps) :: p in ps && !Blank(p)
  {
    if ps != [] {
      KeptAll(ps[1..]);
      assert ps == [ps[0]] + ps[1..];
    }
  }

  function StripLeft(s: string): string { if s != "" && Space(s[0]) then StripLeft(s[1..]) else s }

  function StripRight(s: string): string { if s != "" && Space(s[|s| - 1]) then StripRight(s[..|s| - 1]) else s }

  /** absl::StripAsciiWhitespace. */
  function Strip(s: string): string { StripRight(StripLeft(s)) }

  lemma {:induction false} StripLeftIs(s: string)
    ensures StripLeft(s) == "" <==> Blank(s)
    ensures StripLeft(s) != "" ==> !Space(StripLeft(s)[0])
    ensures forall c <- StripLeft(s) :: c in s
  {
    if s != "" && Space(s[0]) {
      StripLeftIs(s[1..]);
      assert s == [s[0]] + s[1..];
    } else if s != "" {
      assert s[0] in s;
    }
  }

  lemma {:induction false} StripRightIs(s: string)
    ensures s != "" && !Space(s[0]) ==> StripRight(s) != "" && StripRight(s)[0] == s[0]
    ensures forall c <- StripRight(s) :: c in s
  {
    if s != "" && Space(s[|s| - 1]) {
      StripRightIs(s[..|s| - 1]);
    }
  }

  /** A stripped piece that is not blank starts with a non-space. */
  lemma StripStarts(s: string)
    requires !Blank(s)
    ensures Strip(s) != "" && !Space(Strip(s)[0]) && forall c <- Strip(s) :: c in s
  {
    StripLeftIs(s);
    StripRightIs(StripLeft(s));
  }

  /** Starts and ends with a non-space. */
  predicate Trim(s: string) { s != "" && !Space(s[0]) && !Space(s[|s| - 1]) }

  lemma StripTrim(s: string)
    requires Trim(s)
    ensures Strip(s) == s && Strip(" " + s) == s && !Blank(s) && !Blank(" " + s)
  {
    assert StripLeft(" " + s) == StripLeft(s) by {
      assert (" " + s)[1..] == s;
    }
    assert s[0] in s && s[0] in " " + s;
  }

  // --- Numbers -----------------------------------------------------------------------------

  predicate IsDigit(c: char) { '0' <= c <= '9' }

  predicate Digits(s: string) { s != "" && forall c <- s :: IsDigit(c) }

  function DigitOf(n: nat): char
    requires n < 10
  {
    ('0' as int + n) as char
  }

  function Decimal(n: nat): string { (if n < 10 then "" else Decimal(n / 10)) + [DigitOf(n % 10)] }

  function ValueOf(s: string): nat
    requires forall c <- s :: IsDigit(c)
  {
    if s == "" then 0
    else
      assert IsDigit(s[|s| - 1]);
      10 * ValueOf(s[..|s| - 1]) + (s[|s| - 1] as int - '0' as int)
  }

  /** absl::SimpleAtoi, up to the range of int: spaces around, an optional sign, digits. */
  function Atoi(text: string): Option<int> {
    var s := Strip(text);
    var digits := if s != "" && (s[0] == '+' || s[0] == '-') then s[1..] else s;
    if !Digits(digits) then None
    else
      var value: int := ValueOf(digits);
      Some(if s[0] == '-' then -value else value)
  }

  lemma {:induction false} DecimalIs(n: nat)
    ensures Digits(Decimal(n)) && ValueOf(Decimal(n)) == n
  {
    if n >= 10 {
      DecimalIs(n / 10);
    }
    assert Decimal(n)[..|Decimal(n)| - 1] == if n < 10 then "" else Decimal(n / 10);
  }

  lemma AtoiDecimal(n: nat)
    ensures Atoi(Decimal(n)) == Some(n) && Digits(Decimal(n)) && Trim(Decimal(n))
  {
    DecimalIs(n);
    AtoiDigits(Decimal(n));
  }

  lemma AtoiDigits(s: string)
    requires Digits(s)
    ensures Trim(s) && Atoi(s) == Some(ValueOf(s))
  {
    assert IsDigit(s[0]) && IsDigit(s[|s| - 1]);
    StripTrim(s);
  }

  // --- Which texts are numbers -----------------------------------------------------------------

  lemma {:induction false} StripLeftCuts(s: string) returns (left: string)
    ensures Blank(left) && s == left + StripLeft(s)
  {
    left := "";
    if s != "" && Space(s[0]) {
      left := StripLeftCuts(s[1..]);
      left := [s[0]] + left;
    }
  }

  lemma {:induction false} StripRightCuts(s: string) returns (right: string)
    ensures Blank(right) && s == StripRight(s) + right
  {
    right := "";
    if s != "" && Space(s[|s| - 1]) {
      right := StripRightCuts(s[..|s| - 1]);
      right := right + [s[|s| - 1]];
    }
  }

  lemma {:induction false} StripLeftSkips(left: string, s: string)
    requires Blank(left) && s != "" && !Space(s[0])
    ensures StripLeft(left + s) == s
  {
    if left != "" {
      StripLeftSkips(left[1..], s);
      assert (left + s)[1..] == left[1..] + s && left[0] in left;
    }
  }

  lemma {:induction false} StripRightSkips(s: string, right: string)
    requires Blank(right) && s != "" && !Space(s[|s| - 1])
    ensures StripRight(s + right) == s
  {
    if right != "" {
      StripRightSkips(s, right[..|right| - 1]);
      assert (s + right)[..|s + right| - 1] == s + right[..|right| - 1] && right[|right| - 1] in right;
    } else {
      assert s + right == s;
    }
  }

  /** Stripping finds the text between the spaces. */
  lemma StripFinds(left: string, s: string, right: string)
    requires Blank(left) && Blank(right) && Trim(s)
    ensures Strip(left + s + right) == s
  {
    assert left + s + right == left + (s + right);
    StripLeftSkips(left, s + right);
    StripRightSkips(s, right);
  }

  predicate Sign(s: string) { s == "" || s == "+" || s == "-" }

  function SignedValue(sign: string, digits: string): int
    requires Digits(digits)
  {
    var value: int := ValueOf(digits);
    if sign == "-" then -value else value
  }

  /** The text is a number: digits with an optional sign, and spaces around. */
  ghost predicate Numeral(text: string, n: int) {
    exists left, sign, digits, right | Blank(left) && Sign(sign) && Digits(digits) && Blank(right) ::
      text == left + (sign + digits) + right && n == SignedValue(sign, digits)
  }

  lemma NumeralIs(left: string, sign: string, digits: string, right: string)
    requires Blank(left) && Sign(sign) && Digits(digits) && Blank(right)
    ensures Numeral(left + (sign + digits) + right, SignedValue(sign, digits))
  {
  }

  lemma AtoiAccepts(text: string)
    requires Atoi(text).Some?
    ensures Numeral(text, Atoi(text).value)
  {
    var left := StripLeftCuts(text);
    var right := StripRightCuts(StripLeft(text));
    var s := Strip(text);
    var sign := if s[0] == '+' || s[0] == '-' then [s[0]] else "";
    var digits := s[|sign|..];
    assert s == sign + digits && Digits(digits);
    assert text == left + s + right;
    NumeralIs(left, sign, digits, right);
  }

  lemma SignedTrim(sign: string, digits: string)
    requires Sign(sign) && Digits(digits)
    ensures Trim(sign + digits)
  {
    assert IsDigit(digits[0]) && IsDigit(digits[|digits| - 1]);
  }

  /** SimpleAtoi accepts exactly the numerals, with their value. */
  lemma AtoiExactly(text: string, n: int)
    ensures Atoi(text) == Some(n) <==> Numeral(text, n)
  {
    if Atoi(text) == Some(n) {
      AtoiAccepts(text);
    }
    if Numeral(text, n) {
      var left, sign, digits, right :| Blank(left) && Sign(sign) && Digits(digits) && Blank(right)
        && text == left + (sign + digits) + right && n == SignedValue(sign, digits);
      SignedTrim(sign, digits);
      StripFinds(left, sign + digits, right);
      assert IsDigit(digits[0]) && (sign != "" ==> (sign + digits)[1..] == digits);
      assert sign == "" ==> sign + digits == digits;
    }
  }

  // --- Endpoints -----------------------------------------------------------------------------

  type Port = x: nat | x < 0x1_0000

  type Ip4 = x: nat | x < 0x1_0000_0000
  type Ip6 = x: nat | x < 0x1_0000_0000_0000_0000_0000_0000_0000_0000

  /** An address is a number of its family's width, with 0 for "0.0.0.0" and "::". */
  datatype Ip = V4(a: Ip4) | V6(b: Ip6)

  predicate ZeroIp(ip: Ip) { if ip.V4? then ip.a == 0 else ip.b == 0 }

  datatype Endpoint = Endpoint(ip: Ip, port: Port)

  const NO_ENDPOINT := Endpoint(V4(0), 0)

  predicate ValidEndpoint(e: Endpoint) { !ZeroIp(e.ip) && e.port != 0 }

  /** inet_ntop and inet_pton for the two families. */
  datatype IpText = IpText(print4: Ip4 -> string, parse4: string -> Option<Ip4>,
                           print6: Ip6 -> string, parse6: string -> Option<Ip6>)

  predicate AddrChar(c: char) { IsDigit(c) || 'a' <= c <= 'f' || c == ':' || c == '.' }

  predicate AddrText(s: string) { s != "" && forall c <- s :: AddrChar(c) }

  /** What the system promises: printing, then parsing, gives the address back; text has only these characters. */
  ghost predicate Faithful(t: IpText) {
    && (forall ip: Ip4 :: t.parse4(t.print4(ip)) == Some(ip) && AddrText(t.print4(ip)))
    && (forall ip: Ip6 :: t.parse6(t.print6(ip)) == Some(ip) && AddrText(t.print6(ip)))
  }

  /** The promise can be kept, if only by plain numbers. */
  lemma FaithfulNumbers() returns (t: IpText)
    ensures Faithful(t)
  {
    t := IpText((ip: Ip4) => Decimal(ip), s => var n := Atoi(s); if n.Some? && IsIp4(n.value) then n else None,
                (ip: Ip6) => Decimal(ip), s => var n := Atoi(s); if n.Some? && IsIp6(n.value) then n else None);
    forall ip: nat ensures Atoi(Decimal(ip)) == Some(ip) && Digits(Decimal(ip)) {
      AtoiDecimal(ip);
    }
  }

  predicate IsIp4(n: int) { 0 <= n < 0x1_0000_0000 }

  predicate IsIp6(n: int) { 0 <= n < 0x1_0000_0000_0000_0000_0000_0000_0000_0000 }

  function IpPart(t: IpText, e: Endpoint): string {
    match e.ip
    case V4(a) => t.print4(a)
    case V6(b) => "[" + t.print6(b) + "]"
  }

  function EndpointText(t: IpText, e: Endpoint): string { IpPart(t, e) + ":" + Decimal(e.port) }

  /** rfind(':'). */
  function LastColon(s: string): (i: nat)
    requires ':' in s
    ensures i < |s| && s[i] == ':' && ':' !in s[i + 1..]
  {
    if s[|s| - 1] == ':' then |s| - 1
    else
      assert s == s[..|s| - 1] + [s[|s| - 1]];
      var i := LastColon(s[..|s| - 1]);
      assert s[i + 1..] == s[..|s| - 1][i + 1..] + [s[|s| - 1]];
      i
  }

  predicate LooksLikeIPv6(a: string) { |a| >= 2 && a[0] == '[' && a[|a| - 1] == ']' }

  function ParseIp(t: IpText, a: string): Option<Ip> {
    if LooksLikeIPv6(a) then
      var r := t.parse6(a[1..|a| - 1]);
      if r.None? then None else Some(V6(r.value))
    else
      var r := t.parse4(a);
      if r.None? then None else Some(V4(r.value))
  }

  function ParseEndpoint(t: IpText, s: string): Endpoint {
    if ':' !in s then NO_ENDPOINT
    else
      var pos := LastColon(s);
      var port := Atoi(s[pos + 1..]);
      if port.None? || !(0 <= port.value <= 65535) then NO_ENDPOINT
      else
        var ip := ParseIp(t, s[..pos]);
        if ip.None? then NO_ENDPOINT else Endpoint(ip.value, port.value)
  }

  lemma {:induction false} LastColonIs(a: string, p: string)
    requires ':' !in p
    ensures ':' in a + ":" + p && LastColon(a + ":" + p) == |a|
  {
    var s := a + ":" + p;
    assert s[|a|] == ':';
    if p != "" {
      LastColonIs(a, p[..|p| - 1]);
      assert s[..|s| - 1] == a + ":" + p[..|p| - 1];
    }
  }

  lemma IpPartParses(t: IpText, e: Endpoint)
    requires Faithful(t)
    ensures ParseIp(t, IpPart(t, e)) == Some(e.ip) && IpPart(t, e) != "" && !Space(IpPart(t, e)[0])
    ensures forall c <- IpPart(t, e) :: AddrChar(c) || c == '[' || c == ']'
  {
    var a := IpPart(t, e);
    match e.ip {
      case V4(ip) =>
        assert AddrText(t.print4(ip)) && AddrChar(a[0]);
      case V6(ip) =>
        assert AddrText(t.print6(ip)) && a[1..|a| - 1] == t.print6(ip);
    }
  }

  /** The characters of an endpoint's text; none is a separator of the levels above. */
  predicate EndpointChar(c: char) { AddrChar(c) || c == '[' || c == ']' }

  lemma EndpointChars(t: IpText, e: Endpoint)
    requires Faithful(t)
    ensures Trim(EndpointText(t, e)) && forall c <- EndpointText(t, e) :: EndpointChar(c)
  {
    AtoiDecimal(e.port);
    IpPartParses(t, e);
  }

  lemma ParseJoined(t: IpText, a: string, p: string, ip: Ip, port: Port)
    requires ':' !in p && Atoi(p) == Some(port) && ParseIp(t, a) == Some(ip)
    ensures ParseEndpoint(t, a + ":" + p) == Endpoint(ip, port)
  {
    LastColonIs(a, p);
    var s := a + ":" + p;
    assert s[..|a|] == a && s[|a| + 1..] == p;
  }

  lemma EndpointRoundTrip(t: IpText, e: Endpoint)
    requires Faithful(t)
    ensures ParseEndpoint(t, EndpointText(t, e)) == e
  {
    AtoiDecimal(e.port);
    IpPartParses(t, e);
    ParseJoined(t, IpPart(t, e), Decimal(e.port), e.ip, e.port);
  }

  /** The text of an address: IPv6 in brackets, IPv4 without. */
  ghost predicate Address(t: IpText, a: string, ip: Ip) {
    match ip
    case V6(b) => exists inner :: a == "[" + inner + "]" && t.parse6(inner) == Some(b)
    case V4(b) => t.parse4(a) == Some(b) && !LooksLikeIPv6(a)
  }

  /** The text is an address and a port with a colon between. */
  ghost predicate Denotes(t: IpText, s: string, e: Endpoint) {
    exists a, p | Address(t, a, e.ip) :: s == a + ":" + p && ':' !in p && Numeral(p, e.port)
  }

  lemma AddressExactly(t: IpText, a: string, ip: Ip)
    ensures ParseIp(t, a) == Some(ip) <==> Address(t, a, ip)
  {
    if LooksLikeIPv6(a) {
      var inner := a[1..|a| - 1];
      assert a == "[" + inner + "]";
      assert forall other :: a == "[" + other + "]" ==> other == a[1..|a| - 1];
    }
  }

  lemma DenotedParses(t: IpText, s: string, e: Endpoint)
    requires Denotes(t, s, e)
    ensures ParseEndpoint(t, s) == e
  {
    var a, p :| Address(t, a, e.ip) && s == a + ":" + p && ':' !in p && Numeral(p, e.port);
    AtoiExactly(p, e.port);
    AddressExactly(t, a, e.ip);
    ParseJoined(t, a, p, e.ip, e.port);
  }

  lemma ParsedIsDenoted(t: IpText, s: string)
    requires ParseEndpoint(t, s) != NO_ENDPOINT
    ensures Denotes(t, s, ParseEndpoint(t, s))
  {
    var e, pos := ParseEndpoint(t, s), LastColon(s);
    var a, p := s[..pos], s[pos + 1..];
    assert s == a + ":" + p && ':' !in p;
    AtoiExactly(p, e.port);
    AddressExactly(t, a, e.ip);
  }

  /** A text gives the endpoint it denotes; malformed text, which denotes none, gives the empty endpoint. */
  lemma ParsesExactly(t: IpText, s: string, e: Endpoint)
    ensures Denotes(t, s, e) ==> ParseEndpoint(t, s) == e
    ensures ParseEndpoint(t, s) == e ==> Denotes(t, s, e) || e == NO_ENDPOINT
    ensures (forall any :: !Denotes(t, s, any)) ==> ParseEndpoint(t, s) == NO_ENDPOINT
  {
    if Denotes(t, s, e) {
      DenotedParses(t, s, e);
    }
    if ParseEndpoint(t, s) != NO_ENDPOINT {
      ParsedIsDenoted(t, s);
    }
  }

  // --- Network interfaces ---------------------------------------------------------------------

  datatype Kind = Invalid | IP | RDMA

  datatype Nic = Nic(name: string, kind: Kind, endpoints: seq<Endpoint>)

  const NO_NIC := Nic("", Invalid, [])

  predicate ValidNic(n: Nic) {
    && n.name != "" && !n.kind.Invalid? && n.endpoints != []
    && forall e <- n.endpoints :: ValidEndpoint(e) && (n.kind.RDMA? ==> e.ip.V6?)
  }

  function KindText(k: Kind): string {
    match k
    case IP => "ip"
    case RDMA => "rdma"
    case Invalid => "invalid"
  }

  function Lower(c: char): char { if 'A' <= c <= 'Z' then (c as int + 32) as char else c }

  predicate EqualsIgnoreCase(a: string, b: string) {
    |a| == |b| && forall i :: 0 <= i < |a| ==> Lower(a[i]) == Lower(b[i])
  }

  function ParseKind(s: string): (k: Kind)
    ensures k.IP? <==> |s| == 2 && s[0] in "iI" && s[1] in "pP"
    ensures k.RDMA? <==> |s| == 4 && s[0] in "rR" && s[1] in "dD" && s[2] in "mM" && s[3] in "aA"
  {
    if EqualsIgnoreCase(s, "ip") then IP else if EqualsIgnoreCase(s, "rdma") then RDMA else Invalid
  }

  /** absl::StrJoin with ",". */
  function Joined(texts: seq<string>): string {
    if texts == [] then "" else if |texts| == 1 then texts[0] else texts[0] + "," + Joined(texts[1..])
  }

  function EndpointTexts(t: IpText, es: seq<Endpoint>): seq<string> {
    seq(|es|, i requires 0 <= i < |es| => EndpointText(t, es[i]))
  }

  function EndpointsText(t: IpText, es: seq<Endpoint>): string { Joined(EndpointTexts(t, es)) }

  function NicText(t: IpText, n: Nic): string {
    n.name + "/" + KindText(n.kind) + "/" + EndpointsText(t, n.endpoints)
  }

  function ParseStripped(t: IpText, p: string): Endpoint { ParseEndpoint(t, Strip(p)) }

  function ParseEndpoints(t: IpText, ps: seq<string>): seq<Endpoint> {
    seq(|ps|, i requires 0 <= i < |ps| => ParseStripped(t, ps[i]))
  }

  function ParseNic(t: IpText, s: string): (n: Nic)
    ensures n == NO_NIC || ValidNic(n)
  {
    var ps := Kept(SplitMax(s, '/', 2));
    if |ps| != 3 then NO_NIC
    else
      var n := Nic(ps[0], ParseKind(ps[1]), ParseEndpoints(t, Kept(Split(ps[2], ','))));
      if ValidNic(n) then n else NO_NIC
  }

  method CreateEndpoints(t: IpText, ps: seq<string>) returns (es: seq<Endpoint>)
    ensures es == ParseEndpoints(t, ps)
  {
    es := [];
    for i := 0 to |ps|
      invariant es == ParseEndpoints(t, ps)[..i]
    {
      es := es + [ParseStripped(t, ps[i])];
    }
  }

  /** NicInfo::Create, with its loop over the endpoints. */
  method CreateNic(t: IpText, s: string) returns (n: Nic)
    ensures n == ParseNic(t, s)
  {
    var ps := Kept(SplitMax(s, '/', 2));
    if |ps| != 3 {
      return NO_NIC;
    }
    var es := CreateEndpoints(t, Kept(Split(ps[2], ',')));
    n := Nic(ps[0], ParseKind(ps[1]), es);
    return if ValidNic(n) then n else NO_NIC;
  }

  /** A leading piece is split off. */
  lemma KeptSplit(e: string, c: char, rest: string)
    requires c !in e && !Blank(e)
    ensures Kept(Split(e + [c] + rest, c)) == [e] + Kept(Split(rest, c)) && Kept(Split(e, c)) == [e]
  {
    BeforeIs(e, c, rest);
    assert Split(e + [c] + rest, c) == [e] + Split(rest, c);
    assert ([e] + Split(rest, c))[1..] == Split(rest, c);
  }

  predicate EndpointPart(p: string) { Trim(p) && forall c <- p :: EndpointChar(c) }

  lemma {:induction false} JoinedChars(texts: seq<string>)
    requires texts != [] && forall p <- texts :: EndpointPart(p)
    ensures Trim(Joined(texts)) && ';' !in Joined(texts)
  {
    assert EndpointPart(texts[0]);
    if |texts| > 1 {
      JoinedChars(texts[1..]);
    }
  }

  lemma PartHasNone(p: string)
    requires EndpointPart(p)
    ensures ',' !in p && ';' !in p && !Blank(p) && Strip(p) == p
  {
    StripTrim(p);
  }

  lemma JoinedStep(texts: seq<string>)
    requires |texts| > 1
    ensures Joined(texts) == texts[0] + [','] + Joined(texts[1..])
  {
  }

  lemma {:induction false} SplitJoined(texts: seq<string>)
    requires texts != [] && forall p <- texts :: EndpointPart(p)
    ensures Kept(Split(Joined(texts), ',')) == texts
  {
    PartHasNone(texts[0]);
    if |texts| > 1 {
      var rest := texts[1..];
      SplitJoined(rest);
      JoinedStep(texts);
      KeptSplit(texts[0], ',', Joined(rest));
      assert [texts[0]] + rest == texts;
    } else {
      KeptSplit(texts[0], ',', "");
      assert [texts[0]] == texts;
    }
  }

  lemma TextsParse(t: IpText, es: seq<Endpoint>)
    requires Faithful(t)
    ensures forall p <- EndpointTexts(t, es) :: EndpointPart(p)
    ensures ParseEndpoints(t, EndpointTexts(t, es)) == es
  {
    forall i | 0 <= i < |es|
      ensures EndpointPart(EndpointText(t, es[i])) && ParseStripped(t, EndpointText(t, es[i])) == es[i]
    {
      StrippedParses(t, es[i]);
    }
  }

  lemma StrippedParses(t: IpText, e: Endpoint)
    requires Faithful(t)
    ensures EndpointPart(EndpointText(t, e)) && ParseStripped(t, EndpointText(t, e)) == e
  {
    EndpointRoundTrip(t, e);
    EndpointChars(t, e);
    PartHasNone(EndpointText(t, e));
  }

  lemma EndpointsRoundTrip(t: IpText, es: seq<Endpoint>)
    requires Faithful(t) && es != []
    ensures ParseEndpoints(t, Kept(Split(EndpointsText(t, es), ','))) == es
    ensures Trim(EndpointsText(t, es)) && ';' !in EndpointsText(t, es)
  {
    TextsParse(t, es);
    SplitJoined(EndpointTexts(t, es));
    JoinedChars(EndpointTexts(t, es));
  }

  /** A name the printed form can carry. */
  predicate PlainName(name: string) { name != "" && !Space(name[0]) && '/' !in name && ';' !in name }

  lemma KindRoundTrip(k: Kind)
    requires !k.Invalid?
    ensures ParseKind(KindText(k)) == k && '/' !in KindText(k) && ';' !in KindText(k) && !Blank(KindText(k))
  {
    assert KindText(k)[0] in KindText(k);
  }

  /** Three pieces, split at the first two slashes. */
  lemma ThreePieces(a: string, b: string, c: string)
    requires '/' !in a && '/' !in b
    ensures SplitMax(a + "/" + b + "/" + c, '/', 2) == [a, b, c]
  {
    var rest := b + "/" + c;
    assert a + "/" + b + "/" + c == a + ['/'] + rest && rest == b + ['/'] + c;
    BeforeIs(a, '/', rest);
    BeforeIs(b, '/', c);
    assert SplitMax(rest, '/', 1) == [b, c];
  }

  lemma NicTextTrim(name: string, kind: string, es: string)
    requires PlainName(name) && ';' !in kind && Trim(es) && ';' !in es
    ensures var s := name + "/" + kind + "/" + es; Trim(s) && ';' !in s
  {
  }

  lemma NicPieces(name: string, kind: string, es: string)
    requires PlainName(name) && '/' !in kind && !Blank(kind) && Trim(es)
    ensures Kept(SplitMax(name + "/" + kind + "/" + es, '/', 2)) == [name, kind, es]
  {
    ThreePieces(name, kind, es);
    StripTrim(es);
    assert name[0] in name;
    KeptAll([name, kind, es]);
  }

  lemma NicFrom(t: IpText, s: string, n: Nic, kind: string, es: string)
    requires Kept(SplitMax(s, '/', 2)) == [n.name, kind, es] && ValidNic(n)
    requires ParseKind(kind) == n.kind && ParseEndpoints(t, Kept(Split(es, ','))) == n.endpoints
    ensures ParseNic(t, s) == n
  {
  }

  lemma NicRoundTrip(t: IpText, n: Nic)
    requires Faithful(t) && ValidNic(n) && PlainName(n.name)
    ensures ParseNic(t, NicText(t, n)) == n
    ensures Trim(NicText(t, n)) && ';' !in NicText(t, n)
  {
    var es := EndpointsText(t, n.endpoints);
    EndpointsRoundTrip(t, n.endpoints);
    KindRoundTrip(n.kind);
    NicPieces(n.name, KindText(n.kind), es);
    NicTextTrim(n.name, KindText(n.kind), es);
    NicFrom(t, NicText(t, n), n, KindText(n.kind), es);
  }

  /** Whatever is parsed, the name it gives is plain. */
  lemma ParsedNamePlain(t: IpText, s: string)
    requires s != "" && !Space(s[0]) && ';' !in s && ParseNic(t, s) != NO_NIC
    ensures PlainName(ParseNic(t, s).name)
  {
    var ps := SplitMax(s, '/', 2);
    KeptAll(ps);
    assert Kept(ps) == ps;
    assert ps[0] == Before(s, '/') && !Blank(ps[0]);
    assert ps[0][0] == s[..|ps[0]|][0] == s[0];
    assert ';' !in s[..|ps[0]|];
  }

  // --- Hosts --------------------------------------------------------------------------------------

  datatype Host = Host(control: Endpoint, nics: seq<Nic>)

  const NO_HOST := Host(NO_ENDPOINT, [])

  ghost predicate NoDup<T(!new)>(s: seq<T>) { forall i, j :: 0 <= i < j < |s| ==> s[i] != s[j] }

  function DataEndpoints(nics: seq<Nic>): seq<Endpoint> {
    if nics == [] then [] else DataEndpoints(nics[..|nics| - 1]) + nics[|nics| - 1].endpoints
  }

  function Names(nics: seq<Nic>): seq<string> { seq(|nics|, i requires 0 <= i < |nics| => nics[i].name) }

  ghost predicate DataPlaneValid(h: Host) {
    && !ZeroIp(h.control.ip)
    && h.nics != [] && (forall n <- h.nics :: ValidNic(n))
    && NoDup([h.control] + DataEndpoints(h.nics))
    && NoDup(Names(h.nics))
  }

  ghost predicate ValidHost(h: Host) { ValidEndpoint(h.control) && DataPlaneValid(h) }

  function Elements<T(==)>(s: seq<T>): set<T> { set x | x in s }

  /** A sequence has as many distinct elements as positions iff nothing is repeated. */
  lemma {:induction false} NoDupSize<T(!new)>(s: seq<T>)
    ensures |Elements(s)| <= |s| && (|Elements(s)| == |s| <==> NoDup(s))
  {
    if s != [] {
      var init, last := s[..|s| - 1], s[|s| - 1];
      NoDupSize(init);
      assert s == init + [last];
      assert Elements(s) == Elements(init) + {last};
      assert NoDup(s) <==> NoDup(init) && last !in init;
    }
  }

  /** HostInfo::IsDataPlaneValid: counts and collects in loops, and compares sizes. */
  method IsDataPlaneValid(h: Host) returns (r: bool)
    ensures r <==> DataPlaneValid(h)
  {
    var controlValid := !ZeroIp(h.control.ip);
    var dataValid := h.nics != [] && forall n <- h.nics :: ValidNic(n);
    var count := 1;
    var es := {h.control};
    var names := {};
    var i := 0;
    while i < |h.nics|
      invariant 0 <= i <= |h.nics|
      invariant count == 1 + |DataEndpoints(h.nics[..i])|
      invariant es == Elements([h.control] + DataEndpoints(h.nics[..i]))
      invariant names == Elements(Names(h.nics[..i]))
    {
      assert h.nics[..i + 1][..i] == h.nics[..i];
      assert Names(h.nics[..i + 1]) == Names(h.nics[..i]) + [h.nics[i].name];
      count := count + |h.nics[i].endpoints|;
      es := es + Elements(h.nics[i].endpoints);
      names := names + {h.nics[i].name};
      i := i + 1;
    }
    assert h.nics[..|h.nics|] == h.nics;
    NoDupSize([h.control] + DataEndpoints(h.nics));
    NoDupSize(Names(h.nics));
    return controlValid && dataValid && |es| == count && |names| == |h.nics|;
  }

  /** Each text preceded by "; ". */
  function Tail(texts: seq<string>): string { if texts == [] then "" else "; " + texts[0] + Tail(texts[1..]) }

  lemma TailStep(s: string, texts: seq<string>, i: nat)
    requires i < |texts|
    ensures s + Tail(texts[i..]) == s + ("; " + texts[i]) + Tail(texts[i + 1..])
  {
    assert texts[i..][1..] == texts[i + 1..];
  }

  function NicTexts(t: IpText, nics: seq<Nic>): seq<string> {
    seq(|nics|, i requires 0 <= i < |nics| => NicText(t, nics[i]))
  }

  function HostToText(t: IpText, h: Host): string { EndpointText(t, h.control) + Tail(NicTexts(t, h.nics)) }

  /** HostInfo::ToString. */
  method PrintHost(t: IpText, h: Host) returns (s: string)
    ensures s == HostToText(t, h)
  {
    s := EndpointText(t, h.control);
    ghost var texts := NicTexts(t, h.nics);
    for i := 0 to |h.nics|
      invariant s + Tail(texts[i..]) == HostToText(t, h)
    {
      TailStep(s, texts, i);
      s := s + ("; " + NicText(t, h.nics[i]));
    }
    assert s + Tail(texts[|h.nics|..]) == s;
  }

  function ParsePart(t: IpText, p: string): Nic { ParseNic(t, Strip(p)) }

  function ParseParts(t: IpText, ps: seq<string>): seq<Nic> {
    seq(|ps|, i requires 0 <= i < |ps| => ParsePart(t, ps[i]))
  }

  ghost function ValidOrNone(h: Host): Host { if ValidHost(h) then h else NO_HOST }

  /** The first part is the control endpoint, the rest are interfaces. */
  ghost function ParseHost(t: IpText, s: string): Host {
    var ps := Kept(Split(s, ';'));
    if ps == [] then NO_HOST
    else ValidOrNone(Host(ParseStripped(t, ps[0]), ParseParts(t, ps[1..])))
  }

  method CreatePart(t: IpText, p: string) returns (n: Nic)
    ensures n == ParsePart(t, p)
  {
    n := CreateNic(t, Strip(p));
  }

  /** The loop of HostInfo::Create over the interfaces, which gives up at the first invalid one. */
  method CreateNics(t: IpText, ps: seq<string>) returns (ok: bool, nics: seq<Nic>)
    ensures ok <==> forall n <- ParseParts(t, ps) :: ValidNic(n)
    ensures ok ==> nics == ParseParts(t, ps)
  {
    nics := [];
    ghost var all := ParseParts(t, ps);
    for i := 0 to |ps|
      invariant nics == all[..i] && forall n <- nics :: ValidNic(n)
    {
      var n := CreatePart(t, ps[i]);
      if !ValidNic(n) {
        assert all[i] == n && all[i] in all;
        return false, nics;
      }
      nics := nics + [n];
    }
    return true, nics;
  }

  /** HostInfo::Create. */
  method CreateHost(t: IpText, s: string) returns (h: Host)
    ensures h == ParseHost(t, s)
  {
    var ps := Kept(Split(s, ';'));
    if ps == [] {
      return NO_HOST;
    }
    var ok, nics := CreateNics(t, ps[1..]);
    h := Host(ParseStripped(t, ps[0]), nics);
    if !ok {
      return NO_HOST;
    }
    var valid := IsDataPlaneValid(h);
    return if valid && ValidEndpoint(h.control) then h else NO_HOST;
  }

  // --- The round trip --------------------------------------------------------------------------------

  predicate PartText(s: string) { Trim(s) && ';' !in s }

  function Spaced(texts: seq<string>): seq<string> { seq(|texts|, i requires 0 <= i < |texts| => " " + texts[i]) }

  lemma Reassociate(e: string, text: string, rest: string)
    ensures e + ("; " + text + rest) == e + [';'] + (" " + text + rest)
  {
  }

  lemma SplitOne(e: string, text: string, rest: string)
    requires ';' !in e && !Blank(e)
    ensures Kept(Split(e + ("; " + text + rest), ';')) == [e] + Kept(Split(" " + text + rest, ';'))
  {
    KeptSplit(e, ';', " " + text + rest);
    Reassociate(e, text, rest);
  }

  lemma SpacedFirst(texts: seq<string>)
    requires texts != []
    ensures Spaced(texts) == [" " + texts[0]] + Spaced(texts[1..])
  {
  }

  lemma SpacedPart(text: string)
    requires PartText(text)
    ensures ';' !in " " + text && !Blank(" " + text)
  {
    StripTrim(text);
  }

  lemma {:induction false} SplitParts(e: string, texts: seq<string>)
    requires (forall p <- texts :: PartText(p)) && ';' !in e && !Blank(e)
    ensures Kept(Split(e + Tail(texts), ';')) == [e] + Spaced(texts)
    decreases |texts|
  {
    if texts == [] {
      KeptSplit(e, ';', "");
      assert e + Tail(texts) == e;
    } else {
      SpacedPart(texts[0]);
      SplitParts(" " + texts[0], texts[1..]);
      SplitOne(e, texts[0], Tail(texts[1..]));
      SpacedFirst(texts);
    }
  }

  lemma NicPartParses(t: IpText, n: Nic)
    requires Faithful(t) && ValidNic(n) && PlainName(n.name)
    ensures ParsePart(t, " " + NicText(t, n)) == n && PartText(NicText(t, n))
  {
    NicRoundTrip(t, n);
    StripTrim(NicText(t, n));
  }

  lemma NicsParse(t: IpText, nics: seq<Nic>)
    requires Faithful(t) && forall n <- nics :: ValidNic(n) && PlainName(n.name)
    ensures ParseParts(t, Spaced(NicTexts(t, nics))) == nics
    ensures forall p <- NicTexts(t, nics) :: PartText(p)
  {
    forall i | 0 <= i < |nics|
      ensures ParsePart(t, " " + NicText(t, nics[i])) == nics[i] && PartText(NicText(t, nics[i]))
    {
      NicPartParses(t, nics[i]);
    }
  }

  lemma HostFrom(t: IpText, s: string, e: string, parts: seq<string>, h: Host)
    requires Kept(Split(s, ';')) == [e] + parts && ValidHost(h)
    requires ParseStripped(t, e) == h.control && ParseParts(t, parts) == h.nics
    ensures ParseHost(t, s) == h
  {
    assert ([e] + parts)[1..] == parts;
  }

  lemma HostSurvives(t: IpText, h: Host)
    requires Faithful(t) && ValidHost(h) && forall n <- h.nics :: PlainName(n.name)
    ensures ParseHost(t, HostToText(t, h)) == h
  {
    var e, texts := EndpointText(t, h.control), NicTexts(t, h.nics);
    StrippedParses(t, h.control);
    PartHasNone(e);
    NicsParse(t, h.nics);
    SplitParts(e, texts);
    HostFrom(t, HostToText(t, h), e, Spaced(texts), h);
  }

  lemma {:induction false} SplitHasNone(s: string, c: char)
    ensures forall p <- Split(s, c) :: c !in p
    decreases |s|
  {
    if c in s {
      SplitHasNone(After(s, c), c);
    }
  }

  lemma PartNamePlain(t: IpText, p: string)
    requires !Blank(p) && ';' !in p
    ensures ValidNic(ParsePart(t, p)) ==> PlainName(ParsePart(t, p).name)
  {
    StripStarts(p);
    if ValidNic(ParseNic(t, Strip(p))) {
      ParsedNamePlain(t, Strip(p));
    }
  }

  lemma PartsPlain(t: IpText, ps: seq<string>)
    requires forall p <- ps :: !Blank(p) && ';' !in p
    ensures forall n <- ParseParts(t, ps) :: ValidNic(n) ==> PlainName(n.name)
  {
    forall i | 0 <= i < |ps| ensures ValidNic(ParsePart(t, ps[i])) ==> PlainName(ParsePart(t, ps[i]).name) {
      PartNamePlain(t, ps[i]);
    }
  }

  lemma KeptPieces(s: string)
    ensures forall p <- Kept(Split(s, ';')) :: !Blank(p) && ';' !in p
  {
    SplitHasNone(s, ';');
    KeptAll(Split(s, ';'));
  }

  /** Names that come out of the parser are plain. */
  lemma ParsedHostPlain(t: IpText, s: string)
    ensures forall n <- ParseHost(t, s).nics :: PlainName(n.name)
  {
    var ps := Kept(Split(s, ';'));
    KeptPieces(s);
    if ps != [] {
      PartsPlain(t, ps[1..]);
    }
  }

  /**
    * A valid host survives printing and parsing exactly when no name of an interface starts
    * with a space or contains a slash or a semicolon.
    */
  lemma HostRoundTrip(t: IpText, h: Host)
    requires Faithful(t) && ValidHost(h)
    ensures ParseHost(t, HostToText(t, h)) == h <==> forall n <- h.nics :: PlainName(n.name)
  {
    if forall n <- h.nics :: PlainName(n.name) {
      HostSurvives(t, h);
    } else {
      ParsedHostPlain(t, HostToText(t, h));
    }
  }
}
