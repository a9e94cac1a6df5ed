/**
 * The option record `BaseClient::createConnection` hands to PHP's SoapClient.
 * The SOAP transport itself is not modelled: a connection is the record of
 * the options it was created with.
 */
module Connection {
  import opened Wrappers
  import opened Decimal

  /** PHP's SOAP_RPC / SOAP_DOCUMENT binding styles. */
  datatype SoapStyle = Rpc | Document

  /** The options array passed as the second argument of `new \SoapClient(null, ...)`. */
  datatype SoapOptions = SoapOptions(
    location: string,
    uri: string,
    login: string,
    password: string,
    style: SoapStyle,
    keepAlive: bool)

  const SCHEME: string := "http://"

  /** The remote interface namespace of the TrinityCore SOAP console. */
  const URI: string := "urn:TC"

  /** The endpoint URL: `'http://' . address . ':' . port . '/'`. */
  function Location(address: string, port: int): string {
    SCHEME + address + ":" + IntToDecimal(port) + "/"
  }

  /** The options built from the settings read at call time. */
  function ConnectionOptions(address: string, port: int, login: string, password: string): (o: SoapOptions)
    ensures ParseLocation(o.location) == Some((address, port))
    ensures o.uri == URI && o.style == Rpc && !o.keepAlive
    ensures o.login == login && o.password == password
  {
    LocationRoundTrip(address, port);
    SoapOptions(Location(address, port), URI, login, password, Rpc, false)
  }

  /** The index of the last occurrence of `c` in `s`, if any. */
  function LastIndexOf(s: string, c: char): (r: Option<nat>)
    ensures r.None? <==> c !in s
    ensures r.Some? ==> r.value < |s| && s[r.value] == c
    ensures r.Some? ==> forall j :: r.value < j < |s| ==> s[j] != c
    decreases |s|
  {
    if s == [] then None
    else if s[|s| - 1] == c then Some(|s| - 1)
    else
      var r := LastIndexOf(s[..|s| - 1], c);
      assert s == s[..|s| - 1] + [s[|s| - 1]];
      r
  }

  /** The text between the scheme and the closing slash of a location. */
  function LocationBody(s: string): (body: Option<string>)
    ensures body.Some? ==> s == SCHEME + body.value + "/"
  {
    if |s| < |SCHEME| + 1 || s[..|SCHEME|] != SCHEME || s[|s| - 1] != '/' then None
    else
      var body := s[|SCHEME|..|s| - 1];
      assert s == s[..|SCHEME|] + body + [s[|s| - 1]];
      Some(body)
  }

  /**
   * Splits `address:port` at the last colon, so an address that itself
   * contains colons is kept whole.
   */
  function SplitHostPort(body: string): Option<(string, int)> {
    match LastIndexOf(body, ':')
    case None => None
    case Some(k) =>
      match ParseInt(body[k + 1..])
      case None => None
      case Some(port) => Some((body[..k], port))
  }

  /** Splits a location back into address and port. */
  function ParseLocation(s: string): Option<(string, int)> {
    match LocationBody(s)
    case None => None
    case Some(body) => SplitHostPort(body)
  }

  /** The rendered port never contains the separator colon. */
  lemma NoColonInDecimal(i: int)
    ensures ':' !in IntToDecimal(i)
  {
    var s := IntToDecimal(i);
    forall k | 0 <= k < |s|
      ensures s[k] != ':'
    {
      if i < 0 && k > 0 {
        assert s[k] == s[1..][k - 1];
      }
    }
  }

  /** The last colon of `a + ":" + b` is the one between them when `b` has none. */
  lemma {:induction false} LastColon(a: string, b: string)
    requires ':' !in b
    ensures LastIndexOf(a + ":" + b, ':') == Some(|a|)
  {
    var s := a + ":" + b;
    assert s[|a|] == ':';
    forall j | |a| < j < |s|
      ensures s[j] != ':'
    {
      assert s[j] == b[j - |a| - 1];
    }
  }

  /** Stripping the scheme and the slash off a location leaves `address:port`. */
  lemma BodyOfLocation(address: string, port: int)
    ensures LocationBody(Location(address, port)) == Some(address + ":" + IntToDecimal(port))
  {
    var s := Location(address, port);
    assert s[..|SCHEME|] == SCHEME;
    assert s[|SCHEME|..|s| - 1] == address + ":" + IntToDecimal(port);
  }

  /** Splitting `address:port` at the last colon recovers both parts. */
  lemma SplitOfJoin(address: string, port: int)
    ensures SplitHostPort(address + ":" + IntToDecimal(port)) == Some((address, port))
  {
    var d := IntToDecimal(port);
    var body := address + ":" + d;
    NoColonInDecimal(port);
    LastColon(address, d);
    assert body[|address| + 1..] == d;
    assert body[..|address|] == address;
    ParseIntOfDecimal(port);
  }

  /** Parsing a location built from an address and a port recovers both. */
  lemma LocationRoundTrip(address: string, port: int)
    ensures ParseLocation(Location(address, port)) == Some((address, port))
  {
    BodyOfLocation(address, port);
    SplitOfJoin(address, port);
  }

  /** A location is the scheme, then address, colon and port together, then the slash. */
  lemma LocationFromParts(address: string, port: int, digits: string)
    requires IntToDecimal(port) == digits
    ensures Location(address, port) == SCHEME + (address + ":" + digits) + "/"
  {
  }

  /** A string is its part before position `k`, the character there and its part after. */
  lemma SplitAround(body: string, k: nat)
    requires k < |body|
    ensures body == body[..k] + [body[k]] + body[k + 1..]
  {
  }

  /** Whatever `SplitHostPort` accepts is the address, a colon and the rendered port. */
  lemma JoinOfSplit(body: string, address: string, port: int)
    requires SplitHostPort(body) == Some((address, port))
    ensures address + ":" + IntToDecimal(port) == body
  {
    var k := LastIndexOf(body, ':').value;
    var digits := body[k + 1..];
    assert address == body[..k] && ParseInt(digits) == Some(port);
    DecimalOfParseInt(digits);
    SplitAround(body, k);
  }

  /** Every location the parser accepts is exactly the one built from what it reads. */
  lemma LocationOfParse(s: string, address: string, port: int)
    requires ParseLocation(s) == Some((address, port))
    ensures Location(address, port) == s
  {
    var body := LocationBody(s).value;
    JoinOfSplit(body, address, port);
    LocationFromParts(address, port, IntToDecimal(port));
  }

  /** Different settings give different option records, so a stale record is detectable. */
  lemma ConnectionOptionsInjective(a: string, p: int, u: string, w: string,
                                   a': string, p': int, u': string, w': string)
    requires ConnectionOptions(a, p, u, w) == ConnectionOptions(a', p', u', w')
    ensures a == a' && p == p' && u == u' && w == w'
  {
  }
}
