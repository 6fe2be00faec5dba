/** Endpoint URLs (lib/endpoint.ml). */
module Endpoint {
  import opened Base
  import opened Text
  import Decimal

  datatype Scheme = Nats | Tls

  datatype EndpointError =
    | Empty
    | MissingScheme
    | UnsupportedScheme(scheme: string)
    | InvalidAuthority
    | MissingHost
    | InvalidHost(host: string)
    | UnbracketedIpv6
    | UserinfoNotSupported
    | InvalidPort(port: string)
    | PortOutOfRange(port: string)
    | InvalidSuffix

  datatype Endpoint = Endpoint(scheme: Scheme, host: string, port: int)

  const DEFAULT_PORT := 4222

  function SchemeName(s: Scheme): string {
    if s == Nats then "nats" else "tls"
  }

  function SchemeOf(name: string): Result<Scheme, EndpointError> {
    if name == "nats" then Ok(Nats) else if name == "tls" then Ok(Tls) else Error(UnsupportedScheme(name))
  }

  // ---- The loops over characters ----

  method FindCharFrom(value: string, character: char, start: nat) returns (result: Option<nat>)
    requires start <= |value|
    ensures result == IndexFrom(value, character, start)
  {
    result := None;
    for position := start to |value|
      invariant if result.Some? then result == IndexFrom(value, character, start)
                else IndexFrom(value, character, start) == IndexFrom(value, character, position)
    {
      if result.None? && value[position] == character {
        result := Some(position);
      }
    }
  }

  predicate EndsAuthority(c: char) {
    c == '/' || c == '?' || c == '#'
  }

  /** The first character at or after `start` that ends the authority, or the length. */
  function AuthorityEnd(value: string, start: nat): (r: nat)
    requires start <= |value|
    ensures start <= r <= |value| && (r < |value| ==> EndsAuthority(value[r]))
    ensures forall i :: start <= i < r ==> !EndsAuthority(value[i])
    decreases |value| - start
  {
    if start == |value| || EndsAuthority(value[start]) then start else AuthorityEnd(value, start + 1)
  }

  method FindAuthorityEnd(value: string, start: nat) returns (result: nat)
    requires start <= |value|
    ensures result == AuthorityEnd(value, start)
  {
    result := |value|;
    for position := start to |value|
      invariant position <= result <= |value| || result < position
      invariant if result < position then result == AuthorityEnd(value, start)
                else result == |value| && AuthorityEnd(value, start) == AuthorityEnd(value, position)
    {
      if position < result && EndsAuthority(value[position]) {
        result := position;
      }
    }
  }

  predicate BadHostChar(c: char) {
    c as int <= 32 || c as int == 127 || c == '[' || c == ']' || c == '@' || EndsAuthority(c)
  }

  predicate GoodHost(host: string, allowColon: bool) {
    host != "" && forall c <- host :: !BadHostChar(c) && (c == ':' ==> allowColon)
  }

  function HostOf(host: string, allowColon: bool): Result<string, EndpointError> {
    if GoodHost(host, allowColon) then Ok(Lowercase(host)) else Error(InvalidHost(host))
  }

  method ValidateHost(host: string, allowColon: bool) returns (result: Result<string, EndpointError>)
    ensures result == HostOf(host, allowColon)
  {
    var invalid := false;
    for position := 0 to |host|
      invariant invalid <==> exists i :: 0 <= i < position && (BadHostChar(host[i]) || (host[i] == ':' && !allowColon))
    {
      if !invalid {
        var character := host[position];
        if BadHostChar(character) || (!allowColon && character == ':') {
          invalid := true;
        }
      }
    }
    if invalid {
      ghost var i :| 0 <= i < |host| && (BadHostChar(host[i]) || (host[i] == ':' && !allowColon));
      assert host[i] in host;
    }
    return if |host| == 0 || invalid then Error(InvalidHost(host)) else Ok(Lowercase(host));
  }

  /** The length of the leading run of digits. */
  function DigitRun(s: string): (n: nat)
    ensures n <= |s| && Decimal.AllDigits(s[..n]) && (n < |s| ==> !Decimal.IsDigit(s[n]))
  {
    if s == "" || !Decimal.IsDigit(s[0]) then 0
    else
      var n := DigitRun(s[1..]);
      assert s[..n + 1] == [s[0]] + s[1..][..n];
      n + 1
  }

  const MAX_PORT := 65535

  /** A port is a digit string denoting 1..65535; a run of digits that leaves the range is reported as such
      even when something else follows it. */
  function PortOf(value: string): Result<int, EndpointError> {
    var run := value[..DigitRun(value)];
    if Decimal.Value(run) > MAX_PORT then Error(PortOutOfRange(value))
    else if |run| < |value| || Decimal.Value(run) == 0 then Error(InvalidPort(value))
    else Ok(Decimal.Value(run))
  }

  lemma DigitRunIs(s: string, n: nat)
    requires n <= |s| && Decimal.AllDigits(s[..n]) && (n < |s| ==> !Decimal.IsDigit(s[n]))
    ensures DigitRun(s) == n
  {
    var m := DigitRun(s);
    assert forall i :: 0 <= i < m ==> s[..m][i] == s[i];
    assert forall i :: 0 <= i < n ==> s[..n][i] == s[i];
  }

  lemma DigitRunAtLeast(s: string, n: nat)
    requires n <= |s| && Decimal.AllDigits(s[..n])
    ensures n <= DigitRun(s) && Decimal.Value(s[..n]) <= Decimal.Value(s[..DigitRun(s)])
  {
    var m := DigitRun(s);
    assert forall i :: 0 <= i < n ==> s[..n][i] == s[i];
    Decimal.PrefixDigits(s[..m], n);
    assert s[..m][..n] == s[..n];
  }

  /** `parse_port`: the guarded loop. */
  method ParsePort(value: string) returns (result: Result<int, EndpointError>)
    ensures result == PortOf(value)
  {
    if |value| == 0 {
      return Error(InvalidPort(value));
    }
    var parsed := 0;
    var failure: Option<EndpointError> := None;
    for position := 0 to |value|
      invariant failure.Some? ==> PortOf(value) == Error(failure.value)
      invariant failure.None? ==> Decimal.AllDigits(value[..position])
                                  && parsed == Decimal.Value(value[..position]) <= MAX_PORT
    {
      if failure.None? {
        var character := value[position];
        ghost var prefix := value[..position + 1];
        assert prefix[..position] == value[..position];
        if character < '0' || character > '9' {
          DigitRunIs(value, position);
          failure := Some(InvalidPort(value));
        } else {
          var digit := character as int - '0' as int;
          assert Decimal.AllDigits(prefix) && Decimal.Value(prefix) == 10 * parsed + digit;
          if parsed > (MAX_PORT - digit) / 10 {
            DigitRunAtLeast(value, position + 1);
            failure := Some(PortOutOfRange(value));
          } else {
            parsed := parsed * 10 + digit;
          }
        }
      }
    }
    if failure.Some? {
      return Error(failure.value);
    }
    assert value[..|value|] == value;
    DigitRunIs(value, |value|);
    return if parsed == 0 then Error(InvalidPort(value)) else Ok(parsed);
  }

  // ---- Parsing ----

  function AuthorityOf(authority: string): Result<(string, int), EndpointError> {
    if authority == "" then Error(MissingHost)
    else if '@' in authority then Error(UserinfoNotSupported)
    else if authority[0] == '[' then
      match IndexFrom(authority, ']', 1)
      case None => Error(InvalidHost(authority))
      case Some(close) =>
        var suffix := authority[close + 1..];
        var host :- HostOf(authority[1..close], true);
        if suffix == "" then Ok((host, DEFAULT_PORT))
        else if suffix[0] == ':' then
          var port :- PortOf(suffix[1..]);
          Ok((host, port))
        else Error(InvalidHost(authority))
    else
      match IndexFrom(authority, ':', 0)
      case None =>
        var host :- HostOf(authority, false);
        Ok((host, DEFAULT_PORT))
      case Some(colon) =>
        if IndexFrom(authority, ':', colon + 1).Some? then Error(UnbracketedIpv6)
        else
          var host :- HostOf(authority[..colon], false);
          var port :- PortOf(authority[colon + 1..]);
          Ok((host, port))
  }

  function OfString(value: string): Result<Endpoint, EndpointError> {
    if value == "" then Error(Empty)
    else match IndexOf(value, ':')
      case None => Error(MissingScheme)
      case Some(separator) =>
        var scheme :- SchemeOf(Lowercase(value[..separator]));
        var start := separator + 1;
        if start + 1 >= |value| || value[start] != '/' || value[start + 1] != '/' then Error(InvalidAuthority)
        else if AuthorityEnd(value, start + 2) != |value| then Error(InvalidSuffix)
        else
          var (host, port) :- AuthorityOf(value[start + 2..]);
          Ok(Endpoint(scheme, host, port))
  }

  function OfConnectUrl(defaultScheme: Scheme, value: string): Result<Endpoint, EndpointError> {
    var separator := IndexOf(value, ':');
    if value == "" then Error(Empty)
    else if separator.Some? && separator.value + 2 < |value|
            && value[separator.value + 1] == '/' && value[separator.value + 2] == '/' then OfString(value)
    else if AuthorityEnd(value, 0) != |value| then Error(InvalidSuffix)
    else
      var (host, port) :- AuthorityOf(value);
      Ok(Endpoint(defaultScheme, host, port))
  }

  // ---- Printing ----

  function PrintHost(host: string): string {
    if ':' in host then "[" + host + "]" else host
  }

  function ToString(e: Endpoint): string {
    SchemeName(e.scheme) + "://" + (PrintHost(e.host) + (":" + Decimal.PrintInt(e.port)))
  }

  // ---- Round trip ----

  /** The endpoints the parsers can produce. */
  predicate WellFormed(e: Endpoint) {
    GoodHost(e.host, true) && Lowercase(e.host) == e.host && 1 <= e.port <= MAX_PORT
  }

  lemma LowercaseHost(host: string, allowColon: bool)
    requires GoodHost(host, allowColon)
    ensures GoodHost(Lowercase(host), true) && Lowercase(Lowercase(host)) == Lowercase(host)
  {
    var lower := Lowercase(host);
    forall i | 0 <= i < |lower| ensures !BadHostChar(lower[i]) {
      assert host[i] in host;
    }
  }

  lemma AuthorityWellFormed(authority: string, scheme: Scheme)
    requires AuthorityOf(authority).Ok?
    ensures var (host, port) := AuthorityOf(authority).value; WellFormed(Endpoint(scheme, host, port))
  {
    if authority[0] == '[' {
      LowercaseHost(authority[1..IndexFrom(authority, ']', 1).value], true);
    } else if IndexFrom(authority, ':', 0).None? {
      LowercaseHost(authority, false);
    } else {
      LowercaseHost(authority[..IndexFrom(authority, ':', 0).value], false);
    }
  }

  lemma ParsedWellFormed(defaultScheme: Scheme, value: string)
    ensures OfString(value).Ok? ==> WellFormed(OfString(value).value)
    ensures OfConnectUrl(defaultScheme, value).Ok? ==> WellFormed(OfConnectUrl(defaultScheme, value).value)
  {
    if OfString(value).Ok? {
      AuthorityWellFormed(value[IndexOf(value, ':').value + 3..], OfString(value).value.scheme);
    }
    if AuthorityOf(value).Ok? {
      AuthorityWellFormed(value, defaultScheme);
    }
  }

  lemma PortRoundTrip(port: int)
    requires 1 <= port <= MAX_PORT
    ensures PortOf(Decimal.PrintInt(port)) == Ok(port)
    ensures forall c <- Decimal.PrintInt(port) :: Decimal.IsDigit(c)
  {
    var s := Decimal.Print(port);
    assert s[..|s|] == s;
    DigitRunIs(s, |s|);
  }

  lemma FirstIs(s: string, c: char, start: nat, i: nat)
    requires start <= i < |s| && s[i] == c && c !in s[start..i]
    ensures IndexFrom(s, c, start) == Some(i)
  {
    assert s[start..][i - start] == s[i];
    assert forall j :: start <= j < i ==> s[start..i][j - start] == s[j];
  }

  lemma NoneIs(s: string, c: char, start: nat)
    requires start <= |s| && c !in s[start..]
    ensures IndexFrom(s, c, start).None?
  {
    assert forall j :: start <= j < |s| ==> s[start..][j - start] == s[j];
  }

  lemma BracketedRoundTrip(host: string, port: string, a: string)
    requires GoodHost(host, true) && Lowercase(host) == host && ':' in host
    requires a == "[" + host + "]" + (":" + port) && '@' !in a
    ensures AuthorityOf(a) == if PortOf(port).Ok? then Ok((host, PortOf(port).value)) else Error(PortOf(port).error)
  {
    assert a[1..|host| + 1] == host;
    FirstIs(a, ']', 1, |host| + 1);
    assert a[|host| + 2..] == ":" + port && (":" + port)[1..] == port;
  }

  lemma PlainRoundTrip(host: string, port: string, a: string)
    requires GoodHost(host, false) && Lowercase(host) == host && ':' !in port
    requires a == host + (":" + port) && '@' !in a
    ensures AuthorityOf(a) == if PortOf(port).Ok? then Ok((host, PortOf(port).value)) else Error(PortOf(port).error)
  {
    assert a[0..|host|] == host && a[..|host|] == host && a[|host| + 1..] == port;
    FirstIs(a, ':', 0, |host|);
    NoneIs(a, ':', |host| + 1);
    assert host[0] in host;
  }

  /** Neither the host nor the port text holds a character that ends or splits an authority. */
  lemma AuthorityRoundTrip(e: Endpoint)
    requires WellFormed(e)
    ensures var a := PrintHost(e.host) + (":" + Decimal.PrintInt(e.port));
            AuthorityOf(a) == Ok((e.host, e.port)) && forall c <- a :: !EndsAuthority(c)
  {
    var port := Decimal.PrintInt(e.port);
    var a := PrintHost(e.host) + (":" + port);
    PortRoundTrip(e.port);
    forall c | c in a ensures !EndsAuthority(c) && c != '@' {
      assert c in PrintHost(e.host) || c == ':' || c in port;
    }
    if ':' in e.host {
      BracketedRoundTrip(e.host, port, a);
    } else {
      PlainRoundTrip(e.host, port, a);
    }
  }

  /** Both parsers give back every well-formed endpoint from its own text. */
  lemma UrlParts(value: string, name: string, a: string)
    requires value == name + "://" + a && ':' !in name
    ensures IndexOf(value, ':') == Some(|name|) && value[..|name|] == name && |name| + 3 <= |value|
    ensures value[|name| + 1] == '/' && value[|name| + 2] == '/' && value[|name| + 3..] == a
  {
    assert value == name + [':'] + ("//" + a);
    IndexAfter(name, ':', "//" + a);
  }

  lemma UrlResult(value: string, i: nat, scheme: Scheme, host: string, port: int)
    requires IndexOf(value, ':') == Some(i) && i + 3 <= |value| && value[i + 1] == '/' && value[i + 2] == '/'
    requires SchemeOf(Lowercase(value[..i])) == Ok(scheme) && AuthorityEnd(value, i + 3) == |value|
    requires AuthorityOf(value[i + 3..]) == Ok((host, port))
    ensures OfString(value) == Ok(Endpoint(scheme, host, port))
  {
  }

  lemma SchemeReads(scheme: Scheme)
    ensures ':' !in SchemeName(scheme) && SchemeOf(Lowercase(SchemeName(scheme))) == Ok(scheme)
  {
    assert Lowercase("nats") == "nats" && Lowercase("tls") == "tls";
  }

  lemma NoEnd(value: string, start: nat, a: string)
    requires start <= |value| && value[start..] == a && forall c <- a :: !EndsAuthority(c)
    ensures AuthorityEnd(value, start) == |value|
  {
    assert forall i :: start <= i < |value| ==> value[i] == a[i - start];
  }

  lemma WellFormedRoundTrip(e: Endpoint, defaultScheme: Scheme)
    requires WellFormed(e)
    ensures OfString(ToString(e)) == Ok(e) && OfConnectUrl(defaultScheme, ToString(e)) == Ok(e)
  {
    var name := SchemeName(e.scheme);
    var a := PrintHost(e.host) + (":" + Decimal.PrintInt(e.port));
    var s := ToString(e);
    SchemeReads(e.scheme);
    AuthorityRoundTrip(e);
    UrlParts(s, name, a);
    NoEnd(s, |name| + 3, a);
    UrlResult(s, |name|, e.scheme, e.host, e.port);
    assert OfConnectUrl(defaultScheme, s) == OfString(s);
  }

  /** The endpoints `of_string` produces are exactly the well-formed ones. */
  lemma ProducedExactly(e: Endpoint)
    ensures WellFormed(e) <==> exists value :: OfString(value) == Ok(e)
  {
    if WellFormed(e) {
      WellFormedRoundTrip(e, Nats);
    }
    forall value | OfString(value) == Ok(e) ensures WellFormed(e) {
      ParsedWellFormed(Nats, value);
    }
  }

  /** Every endpoint a parser produces survives printing and parsing, by either parser. */
  lemma RoundTrip(value: string, defaultScheme: Scheme, other: Scheme)
    ensures OfString(value).Ok? ==>
              var e := OfString(value).value; OfString(ToString(e)) == Ok(e) && OfConnectUrl(other, ToString(e)) == Ok(e)
    ensures OfConnectUrl(defaultScheme, value).Ok? ==>
              var e := OfConnectUrl(defaultScheme, value).value;
              OfString(ToString(e)) == Ok(e) && OfConnectUrl(other, ToString(e)) == Ok(e)
  {
    ParsedWellFormed(defaultScheme, value);
    if OfString(value).Ok? {
      WellFormedRoundTrip(OfString(value).value, other);
    }
    if OfConnectUrl(defaultScheme, value).Ok? {
      WellFormedRoundTrip(OfConnectUrl(defaultScheme, value).value, other);
    }
  }
}
