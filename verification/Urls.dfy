/** The server URLs and addresses that are understood, and what is wrong with the others. */
module Urls {
  import opened Base
  import opened Text
  import Decimal
  import opened Endpoint

  // ---- Hosts and ports ----

  /** A host is made of printable characters other than brackets, `@` and what ends an authority; colons need
      brackets. */
  predicate HostName(h: string, bracketed: bool) {
    && h != ""
    && forall c <- h :: c as int > 32 && c as int != 127 && c !in "[]@/?#" && (c == ':' ==> bracketed)
  }

  /** The port written, 4222 when none is. */
  predicate PortIs(text: Option<string>, port: int) {
    match text
    case None => port == 4222
    case Some(t) => t != "" && Decimal.AllDigits(t) && Decimal.Value(t) == port && 1 <= port <= 65535
  }

  lemma HostExactly(h: string, bracketed: bool)
    ensures HostOf(h, bracketed) == if HostName(h, bracketed) then Ok(Lowercase(h)) else Error(InvalidHost(h))
  {
    assert forall c: char :: c in "[]@/?#" <==> c == '[' || c == ']' || c == '@' || c == '/' || c == '?' || c == '#';
  }

  lemma PortExactly(t: string, port: int)
    ensures PortOf(t) == Ok(port) <==> PortIs(Some(t), port)
  {
    if PortIs(Some(t), port) {
      assert t[..|t|] == t;
      DigitRunIs(t, |t|);
    }
    if PortOf(t) == Ok(port) {
      assert t[..DigitRun(t)] == t;
    }
  }

  // ---- Addresses ----

  function Written(h: string, bracketed: bool, port: Option<string>): string {
    (if bracketed then "[" + h + "]" else h) + (if port.None? then "" else ":" + port.value)
  }

  ghost predicate Denotes(authority: string, host: string, port: int) {
    exists h: string, bracketed: bool, text: Option<string> ::
      authority == Written(h, bracketed, text) && HostName(h, bracketed) && host == Lowercase(h) && PortIs(text, port)
  }

  lemma NoAt(h: string, bracketed: bool, text: Option<string>, port: int)
    requires HostName(h, bracketed) && PortIs(text, port)
    ensures '@' !in Written(h, bracketed, text)
  {
    if text.Some? {
      Decimal.DigitsAvoid(text.value, '@');
    }
  }

  lemma BracketedAloneResult(a: string, close: nat, host: string)
    requires a != "" && '@' !in a && a[0] == '[' && IndexFrom(a, ']', 1) == Some(close) && close + 1 == |a|
    requires HostOf(a[1..close], true) == Ok(host)
    ensures AuthorityOf(a) == Ok((host, 4222))
  {
    assert a[close + 1..] == "";
  }

  lemma BracketedPortResult(a: string, close: nat, t: string, host: string, port: int)
    requires a != "" && '@' !in a && a[0] == '[' && IndexFrom(a, ']', 1) == Some(close) && close + 1 < |a|
    requires a[close + 1..] == ":" + t && PortOf(t) == Ok(port) && HostOf(a[1..close], true) == Ok(host)
    ensures AuthorityOf(a) == Ok((host, port))
  {
    var suffix := a[close + 1..];
    assert suffix != "" && suffix[0] == ':' && suffix[1..] == t;
  }

  lemma Closed(a: string, h: string, rest: string)
    requires a == "[" + h + "]" + rest && HostName(h, true)
    ensures a != "" && a[0] == '[' && a[1..|h| + 1] == h && a[|h| + 2..] == rest
    ensures IndexFrom(a, ']', 1) == Some(|h| + 1) && HostOf(a[1..|h| + 1], true) == Ok(Lowercase(h))
  {
    assert a[1..|h| + 1] == h && a[|h| + 1] == ']';
    HostExactly(h, true);
    FirstIs(a, ']', 1, |h| + 1);
  }

  lemma BracketedAlone(h: string)
    requires HostName(h, true)
    ensures AuthorityOf(Written(h, true, None)) == Ok((Lowercase(h), 4222))
  {
    var a := Written(h, true, None);
    NoAt(h, true, None, 4222);
    assert a == "[" + h + "]" + "";
    Closed(a, h, "");
    BracketedAloneResult(a, |h| + 1, Lowercase(h));
  }

  lemma BracketedPort(h: string, t: string, port: int)
    requires HostName(h, true) && PortIs(Some(t), port)
    ensures AuthorityOf(Written(h, true, Some(t))) == Ok((Lowercase(h), port))
  {
    var a := Written(h, true, Some(t));
    NoAt(h, true, Some(t), port);
    Closed(a, h, ":" + t);
    PortExactly(t, port);
    BracketedPortResult(a, |h| + 1, t, Lowercase(h), port);
  }

  lemma BracketedReads(h: string, text: Option<string>, port: int)
    requires HostName(h, true) && PortIs(text, port)
    ensures AuthorityOf(Written(h, true, text)) == Ok((Lowercase(h), port))
  {
    match text
    case None => BracketedAlone(h);
    case Some(t) => BracketedPort(h, t, port);
  }

  lemma PortResult(a: string, colon: nat, host: string, port: int)
    requires a != "" && '@' !in a && a[0] != '[' && IndexFrom(a, ':', 0) == Some(colon) && IndexFrom(a, ':', colon + 1).None?
    requires HostOf(a[..colon], false) == Ok(host) && PortOf(a[colon + 1..]) == Ok(port)
    ensures AuthorityOf(a) == Ok((host, port))
  {
  }

  lemma Opens(a: string, h: string, rest: string)
    requires a == h + ":" + rest && HostName(h, false) && ':' !in rest
    ensures a != "" && a[0] != '[' && a[..|h|] == h && a[|h| + 1..] == rest
    ensures IndexFrom(a, ':', 0) == Some(|h|) && IndexFrom(a, ':', |h| + 1).None?
  {
    assert h[0] in h && a[0] == h[0];
    assert a[0..|h|] == h && a[|h|] == ':';
    assert a[..|h|] == h && a[|h| + 1..] == rest;
    FirstIs(a, ':', 0, |h|);
    NoneIs(a, ':', |h| + 1);
  }

  lemma Alone(h: string)
    requires HostName(h, false)
    ensures AuthorityOf(h) == Ok((Lowercase(h), 4222))
  {
    HostExactly(h, false);
    assert h[0] in h && h[0..] == h;
    NoneIs(h, ':', 0);
  }

  lemma PlainPort(h: string, t: string, port: int)
    requires HostName(h, false) && PortIs(Some(t), port)
    ensures AuthorityOf(Written(h, false, Some(t))) == Ok((Lowercase(h), port))
  {
    var a := Written(h, false, Some(t));
    NoAt(h, false, Some(t), port);
    Decimal.DigitsAvoid(t, ':');
    assert a == h + ":" + t;
    Opens(a, h, t);
    HostExactly(h, false);
    PortExactly(t, port);
    PortResult(a, |h|, Lowercase(h), port);
  }

  lemma PlainReads(h: string, text: Option<string>, port: int)
    requires HostName(h, false) && PortIs(text, port)
    ensures AuthorityOf(Written(h, false, text)) == Ok((Lowercase(h), port))
  {
    match text
    case None =>
      assert Written(h, false, text) == h;
      Alone(h);
    case Some(t) => PlainPort(h, t, port);
  }

  lemma BracketedDenotes(a: string, host: string, port: int)
    requires a != "" && a[0] == '[' && AuthorityOf(a) == Ok((host, port))
    ensures Denotes(a, host, port)
  {
    var close := IndexFrom(a, ']', 1).value;
    var h, suffix := a[1..close], a[close + 1..];
    HostExactly(h, true);
    assert a == "[" + h + "]" + suffix;
    if suffix == "" {
      assert a == Written(h, true, None);
    } else {
      PortExactly(suffix[1..], port);
      assert suffix == ":" + suffix[1..];
      assert a == Written(h, true, Some(suffix[1..]));
    }
  }

  lemma PlainDenotes(a: string, host: string, port: int)
    requires a != "" && a[0] != '[' && AuthorityOf(a) == Ok((host, port))
    ensures Denotes(a, host, port)
  {
    match IndexFrom(a, ':', 0)
    case None =>
      HostExactly(a, false);
      assert a == Written(a, false, None);
    case Some(colon) =>
      HostExactly(a[..colon], false);
      PortExactly(a[colon + 1..], port);
      assert a == Written(a[..colon], false, Some(a[colon + 1..]));
  }

  /** Exactly the authorities that are a host, in brackets where it has colons or just anyway, and perhaps a port. */
  lemma AuthorityExactly(a: string, host: string, port: int)
    ensures AuthorityOf(a) == Ok((host, port)) <==> Denotes(a, host, port)
  {
    if Denotes(a, host, port) {
      var h: string, bracketed: bool, text: Option<string> :|
        a == Written(h, bracketed, text) && HostName(h, bracketed) && host == Lowercase(h) && PortIs(text, port);
      if bracketed {
        BracketedReads(h, text, port);
      } else {
        PlainReads(h, text, port);
      }
    }
    if AuthorityOf(a) == Ok((host, port)) {
      if a[0] == '[' {
        BracketedDenotes(a, host, port);
      } else {
        PlainDenotes(a, host, port);
      }
    }
  }

  // ---- URLs ----

  function NameOf(s: Scheme): string {
    match s
    case Nats => "nats"
    case Tls => "tls"
  }

  predicate Bare(a: string) {
    '/' !in a && '?' !in a && '#' !in a
  }

  ghost predicate Url(value: string, e: Endpoint) {
    exists name: string, a: string ::
      value == name + "://" + a && Lowercase(name) == NameOf(e.scheme) && Bare(a) && Denotes(a, e.host, e.port)
  }

  lemma BareExactly(value: string, start: nat)
    requires start <= |value|
    ensures AuthorityEnd(value, start) == |value| <==> Bare(value[start..])
  {
    assert forall i :: start <= i < |value| ==> value[i] == value[start..][i - start];
    if !Bare(value[start..]) {
      var i :| 0 <= i < |value[start..]| && EndsAuthority(value[start..][i]);
      assert EndsAuthority(value[start + i]);
    }
  }

  lemma NoColon(name: string, s: Scheme)
    requires Lowercase(name) == NameOf(s)
    ensures ':' !in name
  {
    assert forall i :: 0 <= i < |name| ==> Lowercase(name)[i] == Lower(name[i]);
  }

  lemma UrlReads(value: string, name: string, a: string, e: Endpoint)
    requires value == name + "://" + a && Lowercase(name) == NameOf(e.scheme) && Bare(a)
    requires AuthorityOf(a) == Ok((e.host, e.port))
    ensures OfString(value) == Ok(e)
  {
    NoColon(name, e.scheme);
    UrlParts(value, name, a);
    BareExactly(value, |name| + 3);
    UrlResult(value, |name|, e.scheme, e.host, e.port);
  }

  lemma UrlOpened(value: string, e: Endpoint) returns (i: nat)
    requires OfString(value) == Ok(e)
    ensures i + 3 <= |value| && value[i] == ':' && value[i + 1] == '/' && value[i + 2] == '/'
    ensures Lowercase(value[..i]) == NameOf(e.scheme) && AuthorityEnd(value, i + 3) == |value|
    ensures AuthorityOf(value[i + 3..]) == Ok((e.host, e.port))
  {
    i := IndexOf(value, ':').value;
  }

  lemma Opened(value: string, i: nat)
    requires i + 3 <= |value| && value[i] == ':' && value[i + 1] == '/' && value[i + 2] == '/'
    ensures value == value[..i] + "://" + value[i + 3..]
  {
  }

  lemma ReadsUrl(value: string, e: Endpoint)
    requires OfString(value) == Ok(e)
    ensures Url(value, e)
  {
    var i := UrlOpened(value, e);
    BareExactly(value, i + 3);
    AuthorityExactly(value[i + 3..], e.host, e.port);
    Opened(value, i);
  }

  /** Exactly the URLs of a known scheme, in any case, with an authority and nothing behind it. */
  lemma UrlExactly(value: string, e: Endpoint)
    ensures OfString(value) == Ok(e) <==> Url(value, e)
  {
    if Url(value, e) {
      var name: string, a: string :|
        value == name + "://" + a && Lowercase(name) == NameOf(e.scheme) && Bare(a) && Denotes(a, e.host, e.port);
      AuthorityExactly(a, e.host, e.port);
      UrlReads(value, name, a, e);
    }
    if OfString(value) == Ok(e) {
      ReadsUrl(value, e);
    }
  }

  /** The first colon is followed by two slashes. */
  ghost predicate HasScheme(value: string) {
    exists name: string, a: string :: value == name + "://" + a && ':' !in name
  }

  lemma SchemeExactly(value: string)
    ensures HasScheme(value) <==>
            var i := IndexOf(value, ':');
            i.Some? && i.value + 2 < |value| && value[i.value + 1] == '/' && value[i.value + 2] == '/'
  {
    if HasScheme(value) {
      var name: string, a: string :| value == name + "://" + a && ':' !in name;
      UrlParts(value, name, a);
    }
    var i := IndexOf(value, ':');
    if i.Some? && i.value + 2 < |value| && value[i.value + 1] == '/' && value[i.value + 2] == '/' {
      assert value == value[..i.value] + "://" + value[i.value + 3..];
    }
  }

  lemma PlainResult(defaultScheme: Scheme, value: string, e: Endpoint, r: Result<(string, int), EndpointError>)
    requires value != "" && AuthorityEnd(value, 0) == |value| && r == AuthorityOf(value)
    requires var i := IndexOf(value, ':');
             !(i.Some? && i.value + 2 < |value| && value[i.value + 1] == '/' && value[i.value + 2] == '/')
    ensures OfConnectUrl(defaultScheme, value) == Ok(e) <==> e.scheme == defaultScheme && r == Ok((e.host, e.port))
  {
    match r
    case Error(_) =>
    case Ok(address) =>
      assert OfConnectUrl(defaultScheme, value) == Ok(Endpoint(defaultScheme, address.0, address.1));
  }

  lemma PlainAddress(defaultScheme: Scheme, value: string, e: Endpoint)
    requires !HasScheme(value)
    ensures OfConnectUrl(defaultScheme, value) == Ok(e) <==>
            e.scheme == defaultScheme && AuthorityEnd(value, 0) == |value| && AuthorityOf(value) == Ok((e.host, e.port))
  {
    SchemeExactly(value);
    if value == "" {
      assert AuthorityOf(value) == Error(MissingHost);
    } else if AuthorityEnd(value, 0) == |value| {
      PlainResult(defaultScheme, value, e, AuthorityOf(value));
    }
  }

  lemma UrlAddress(defaultScheme: Scheme, value: string)
    requires HasScheme(value)
    ensures OfConnectUrl(defaultScheme, value) == OfString(value)
  {
    SchemeExactly(value);
  }

  /** An advertised address is a URL, or an authority alone, which takes the default scheme. */
  lemma ConnectUrlExactly(defaultScheme: Scheme, value: string, e: Endpoint)
    ensures OfConnectUrl(defaultScheme, value) == Ok(e) <==>
            if HasScheme(value) then Url(value, e)
            else e.scheme == defaultScheme && Bare(value) && Denotes(value, e.host, e.port)
  {
    if HasScheme(value) {
      UrlAddress(defaultScheme, value);
      UrlExactly(value, e);
    } else {
      PlainAddress(defaultScheme, value, e);
      BareExactly(value, 0);
      assert value[0..] == value;
      AuthorityExactly(value, e.host, e.port);
    }
  }

  // ---- What is wrong with the others ----

  predicate TooLarge(t: string, n: nat) {
    n <= |t| && Decimal.AllDigits(t[..n]) && Decimal.Value(t[..n]) > 65535
  }

  /** A port is out of range as soon as its first digits are, whatever follows them; any other is no port at all. */
  lemma PortFaults(t: string)
    ensures PortOf(t).Ok? || PortOf(t) == Error(InvalidPort(t)) || PortOf(t) == Error(PortOutOfRange(t))
    ensures PortOf(t) == Error(PortOutOfRange(t)) <==> exists n :: TooLarge(t, n)
  {
    if PortOf(t) == Error(PortOutOfRange(t)) {
      assert TooLarge(t, DigitRun(t));
    }
    if n: nat :| TooLarge(t, n) {
      DigitRunAtLeast(t, n);
    }
  }

  lemma AuthorityFaults(a: string)
    ensures a == "" ==> AuthorityOf(a) == Error(MissingHost)
    ensures '@' in a ==> AuthorityOf(a) == Error(UserinfoNotSupported)
    ensures a != "" && a[0] == '[' && '@' !in a && ']' !in a ==> AuthorityOf(a) == Error(InvalidHost(a))
  {
    if a != "" && a[0] == '[' && ']' !in a {
      assert ']' !in a[1..];
    }
  }

  /** In brackets the host is looked at first, then what follows them. */
  lemma BracketedFaults(a: string, h: string, suffix: string)
    requires a == "[" + h + "]" + suffix && ']' !in h && '@' !in a
    ensures !HostName(h, true) ==> AuthorityOf(a) == Error(InvalidHost(h))
    ensures HostName(h, true) && suffix != "" && suffix[0] != ':' ==> AuthorityOf(a) == Error(InvalidHost(a))
    ensures HostName(h, true) && suffix != "" && suffix[0] == ':' && PortOf(suffix[1..]).Error? ==>
              AuthorityOf(a) == Error(PortOf(suffix[1..]).error)
  {
    HostExactly(h, true);
    assert a[1..|h| + 1] == h && a[|h| + 1] == ']' && a[|h| + 2..] == suffix;
    FirstIs(a, ']', 1, |h| + 1);
  }

  lemma PlainFaults(a: string, h: string, rest: string)
    requires a == h + ":" + rest && ':' !in h && '@' !in a && (h != "" ==> h[0] != '[')
    ensures ':' in rest ==> AuthorityOf(a) == Error(UnbracketedIpv6)
    ensures ':' !in rest && !HostName(h, false) ==> AuthorityOf(a) == Error(InvalidHost(h))
    ensures ':' !in rest && HostName(h, false) && PortOf(rest).Error? ==> AuthorityOf(a) == Error(PortOf(rest).error)
  {
    HostExactly(h, false);
    assert a[0..|h|] == h && a[..|h|] == h && a[|h|] == ':' && a[|h| + 1..] == rest;
    FirstIs(a, ':', 0, |h|);
    if ':' !in rest {
      NoneIs(a, ':', |h| + 1);
    }
  }

  lemma PortlessFaults(a: string)
    requires a != "" && ':' !in a && '@' !in a && a[0] != '['
    ensures !HostName(a, false) ==> AuthorityOf(a) == Error(InvalidHost(a))
  {
    HostExactly(a, false);
    assert a[0..] == a;
    NoneIs(a, ':', 0);
  }

  lemma UrlFaults(value: string)
    ensures value == "" ==> OfString(value) == Error(Empty)
    ensures value != "" && ':' !in value ==> OfString(value) == Error(MissingScheme)
  {
  }

  /** After the scheme come the slashes, the end of the authority and the authority itself. */
  lemma UrlFaultsAfter(value: string, name: string, rest: string)
    requires value == name + ":" + rest && ':' !in name
    ensures Lowercase(name) != "nats" && Lowercase(name) != "tls" ==>
              OfString(value) == Error(UnsupportedScheme(Lowercase(name)))
    ensures Lowercase(name) == "nats" || Lowercase(name) == "tls" ==>
              if |rest| < 2 || rest[0] != '/' || rest[1] != '/' then OfString(value) == Error(InvalidAuthority)
              else if !Bare(rest[2..]) then OfString(value) == Error(InvalidSuffix)
              else AuthorityOf(rest[2..]).Error? ==> OfString(value) == Error(AuthorityOf(rest[2..]).error)
  {
    assert value == name + [':'] + rest;
    IndexAfter(name, ':', rest);
    assert value[..|name|] == name;
    if |rest| >= 2 {
      assert value[|name| + 1] == rest[0] && value[|name| + 2] == rest[1] && value[|name| + 3..] == rest[2..];
      BareExactly(value, |name| + 3);
    }
  }

  lemma ConnectUrlFaults(defaultScheme: Scheme, value: string)
    ensures value == "" ==> OfConnectUrl(defaultScheme, value) == Error(Empty)
    ensures HasScheme(value) ==> OfConnectUrl(defaultScheme, value) == OfString(value)
    ensures value != "" && !HasScheme(value) && !Bare(value) ==> OfConnectUrl(defaultScheme, value) == Error(InvalidSuffix)
    ensures value != "" && !HasScheme(value) && Bare(value) && AuthorityOf(value).Error? ==>
              OfConnectUrl(defaultScheme, value) == Error(AuthorityOf(value).error)
  {
    SchemeExactly(value);
    BareExactly(value, 0);
    assert value[0..] == value;
  }
}
