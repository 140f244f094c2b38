/**
 * The connection URI `[scheme://]host[:port][/path]` as SocketIO::connect takes
 * it apart, and the `host:port` key that names one transport session.
 */
module Address {
  import opened Text
  import opened Wrappers

  /** What SocketIO::connect extracts. `port` is None when the URI has no ':' after the scheme. */
  datatype Uri = Uri(host: string, port: Option<int>, path: string)

  /** The URI with everything up to and including the first "//" removed. */
  function StripScheme(uri: string): (rest: string)
    ensures |rest| <= |uri| && rest == uri[|uri| - |rest|..]
    ensures (forall j :: 0 <= j ==> !OccursAt(uri, "//", j)) ==> rest == uri
  {
    var i := FindText(uri, "//");
    if i >= 0 then uri[i + 2..] else uri
  }

  /**
   * The port is `atoi` of the text after the first ':'; the path is "/" plus the
   * text after the first '/', or "/" alone; the host is the text before the first
   * ':', or else before the first '/', or else everything.
   */
  function ParseUri(uri: string): (u: Uri)
    ensures ':' !in u.host
    ensures |u.path| > 0 && u.path[0] == '/'
    ensures u.port.None? <==> ':' !in StripScheme(uri)
    ensures u.port.None? ==> '/' !in u.host
  {
    var rest := StripScheme(uri);
    Uri(HostOf(rest), PortOf(rest), PathOf(rest))
  }

  function PortOf(rest: string): (port: Option<int>)
    ensures port.None? <==> ':' !in rest
  {
    var colon := Find(rest, ':');
    if colon >= 0 then Some(Atoi(After(rest, colon))) else None
  }

  function PathOf(rest: string): (path: string)
    ensures |path| > 0 && path[0] == '/'
    ensures '/' !in rest ==> path == "/"
  {
    var slash := Find(rest, '/');
    if slash >= 0 then "/" + After(rest, slash) else "/"
  }

  function HostOf(rest: string): (host: string)
    ensures ':' !in host
    ensures ':' !in rest ==> '/' !in host
  {
    var colon := Find(rest, ':');
    var slash := Find(rest, '/');
    if colon >= 0 then rest[..colon] else if slash >= 0 then rest[..slash] else rest
  }

  /** The key of a transport session, as `stream << host << ":" << port` writes it. */
  function HostPort(host: string, port: int): (key: string)
    ensures |key| > |host| && key[..|host|] == host && key[|host|] == ':'
    ensures key[|host| + 1..] == IntToString(port)
  {
    host + ":" + IntToString(port)
  }

  /** Different destinations never share a key: the key gives back its host and port. */
  lemma HostPortInjective(host: string, port: int, host': string, port': int)
    requires ':' !in host && ':' !in host'
    requires HostPort(host, port) == HostPort(host', port')
    ensures host == host' && port == port'
  {
    var key := HostPort(host, port);
    assert key == host + [':'] + IntToString(port);
    assert key == host' + [':'] + IntToString(port');
    FindAfterPrefix(host, ':', IntToString(port));
    FindAfterPrefix(host', ':', IntToString(port'));
    assert key[..|host|] == host && key[..|host'|] == host';
    AtoiOfIntToString(port, "");
    AtoiOfIntToString(port', "");
    assert IntToString(port) + "" == IntToString(port);
    assert IntToString(port') + "" == IntToString(port');
  }

  /** A URI with an explicit port parses into its parts. */
  lemma {:induction false} ParseUriWithPort(scheme: string, host: string, port: nat, path: string)
    requires '/' !in scheme && ':' !in host && '/' !in host
    ensures ParseUri(scheme + "//" + host + ":" + NatToString(port) + "/" + path)
         == Uri(host, Some(port), "/" + path)
  {
    DigitsValueOfNatToString(port);
    ParseUriWithPortDigits(scheme, host, NatToString(port), path);
  }

  lemma {:induction false} ParseUriWithPortDigits(scheme: string, host: string, digits: string, path: string)
    requires '/' !in scheme && ':' !in host && '/' !in host
    requires |digits| > 0 && AllDigits(digits)
    ensures ParseUri(scheme + "//" + host + ":" + digits + "/" + path)
         == Uri(host, Some(DigitsValue(digits)), "/" + path)
  {
    var u := ParseUri(scheme + "//" + host + ":" + digits + "/" + path);
    NonDigitNotIn(digits, '/');
    ParseUriFields(scheme, host, digits, path);
    var n := Atoi(digits + "/" + path);
    assert u == Uri(host, Some(n), "/" + path);
    AtoiOfDigits(digits, "/" + path);
    Associative(digits, "/", path);
  }

  lemma ParseUriFields(scheme: string, host: string, port: string, path: string)
    requires '/' !in scheme && ':' !in host && '/' !in host && '/' !in port
    ensures ParseUri(scheme + "//" + host + ":" + port + "/" + path)
         == Uri(host, Some(Atoi(port + "/" + path)), "/" + path)
  {
    var uri, rest := scheme + "//" + host + ":" + port + "/" + path, host + ":" + port + "/" + path;
    SchemeThenRest(scheme, host, port, path);
    StripSchemeOf(scheme, rest);
    assert StripScheme(uri) == rest;
    PartsOf(host, port, path);
  }

  lemma SchemeThenRest(scheme: string, host: string, port: string, path: string)
    ensures scheme + "//" + host + ":" + port + "/" + path == scheme + "//" + (host + ":" + port + "/" + path)
  {
    Associative(scheme + "//", host + ":" + port + "/", path);
    Associative(scheme + "//", host + ":" + port, "/");
    Associative(scheme + "//", host + ":", port);
    Associative(scheme + "//", host, ":");
  }

  /** The three parts of `host:port/path` once the scheme is gone. */
  lemma PartsOf(host: string, port: string, path: string)
    requires ':' !in host && '/' !in host && '/' !in port
    ensures HostOf(host + ":" + port + "/" + path) == host
    ensures PortOf(host + ":" + port + "/" + path) == Some(Atoi(port + "/" + path))
    ensures PathOf(host + ":" + port + "/" + path) == "/" + path
  {
    var rest := host + ":" + port + "/" + path;
    assert rest == host + [':'] + (port + "/" + path);
    FindAfterPrefix(host, ':', port + "/" + path);
    assert rest[..|host|] == host;
    assert '/' !in host + ":" + port;
    assert rest == (host + ":" + port) + ['/'] + path;
    FindAfterPrefix(host + ":" + port, '/', path);
  }

  lemma StripSchemeOf(scheme: string, rest: string)
    requires '/' !in scheme
    ensures StripScheme(scheme + "//" + rest) == rest
  {
    FindTextAfterPrefix(scheme, "//", rest);
  }

  /** A URI without a port leaves the port unset; the host ends at the first '/'. */
  lemma ParseUriWithoutPort(scheme: string, host: string, path: string)
    requires '/' !in scheme && ':' !in host && '/' !in host && ':' !in path
    ensures ParseUri(scheme + "//" + host + "/" + path) == Uri(host, None, "/" + path)
  {
    var rest := host + "/" + path;
    assert scheme + "//" + host + "/" + path == scheme + "//" + rest;
    StripSchemeOf(scheme, rest);
    assert rest == host + ['/'] + path;
    FindAfterPrefix(host, '/', path);
    assert ':' !in rest;
    assert HostOf(rest) == host;
    assert PathOf(rest) == "/" + path;
  }

  /** A URI with no '/' at all has no scheme to strip. */
  lemma NoSchemeWithoutSlash(uri: string)
    requires '/' !in uri
    ensures StripScheme(uri) == uri
  {
    forall j | 0 <= j
      ensures !OccursAt(uri, "//", j)
    {
      if j + 2 <= |uri| {
        assert uri[j..j + 2][0] == uri[j];
      }
    }
  }

  /** `host:port` with neither scheme nor path: the path defaults to "/". */
  lemma ParseUriHostPort(host: string, digits: string)
    requires ':' !in host && '/' !in host
    requires |digits| > 0 && AllDigits(digits)
    ensures ParseUri(host + ":" + digits) == Uri(host, Some(DigitsValue(digits)), "/")
  {
    var uri := host + ":" + digits;
    NonDigitNotIn(digits, '/');
    assert '/' !in uri;
    NoSchemeWithoutSlash(uri);
    FindAfterPrefix(host, ':', digits);
    assert uri[..|host|] == host;
    AtoiOfDigits(digits, "");
    assert digits + "" == digits;
  }

  /** `scheme//host` with neither port nor path: the port is unset and the path is "/". */
  lemma ParseUriSchemeHost(scheme: string, host: string)
    requires '/' !in scheme && ':' !in host && '/' !in host
    ensures ParseUri(scheme + "//" + host) == Uri(host, None, "/")
  {
    StripSchemeOf(scheme, host);
  }

  /** A URI with no scheme keeps every character when its only '/' is the one after the host part. */
  lemma OneSlashNoScheme(a: string, b: string)
    requires '/' !in a && '/' !in b
    ensures StripScheme(a + "/" + b) == a + "/" + b
  {
    var uri := a + "/" + b;
    assert forall j :: 0 <= j < |a| ==> uri[j] == a[j];
    assert forall j :: |a| < j < |uri| ==> uri[j] == b[j - |a| - 1];
    forall j | 0 <= j && j + 2 <= |uri|
      ensures uri[j] != '/' || uri[j + 1] != '/'
    {
      if j == |a| {
        assert uri[j + 1] == b[0];
      }
    }
    forall j | 0 <= j
      ensures !OccursAt(uri, "//", j)
    {
      if j + 2 <= |uri| {
        assert uri[j..j + 2] == [uri[j], uri[j + 1]];
      }
    }
  }

  /** `host:port/path` without a scheme, the form `example.com:80/chat`. */
  lemma {:induction false} ParseUriNoScheme(host: string, digits: string, path: string)
    requires ':' !in host && '/' !in host
    requires |digits| > 0 && AllDigits(digits)
    requires '/' !in path
    ensures ParseUri(host + ":" + digits + "/" + path) == Uri(host, Some(DigitsValue(digits)), "/" + path)
  {
    NonDigitNotIn(digits, '/');
    assert '/' !in host + ":" + digits;
    OneSlashNoScheme(host + ":" + digits, path);
    PartsOf(host, digits, path);
    AtoiOfDigits(digits, "/" + path);
    Associative(digits, "/", path);
  }

  /** `host/path` without a scheme or a port: the port stays unset. */
  lemma ParseUriNoSchemeNoPort(host: string, path: string)
    requires ':' !in host && '/' !in host
    requires ':' !in path && '/' !in path
    ensures ParseUri(host + "/" + path) == Uri(host, None, "/" + path)
  {
    var rest := host + "/" + path;
    OneSlashNoScheme(host, path);
    assert rest == host + ['/'] + path;
    FindAfterPrefix(host, '/', path);
    assert ':' !in rest;
  }

  /** The first occurrence of a pattern, with none before it, is where `FindText` stops. */
  lemma FindTextFirst(s: string, pat: string, i: int)
    requires |pat| > 0 && OccursAt(s, pat, i)
    requires forall j :: 0 <= j < i ==> !OccursAt(s, pat, j)
    ensures FindText(s, pat) == i
  {
  }

  /**
   * The search for "//" runs over the whole URI, so a scheme-less URI whose path
   * holds "//" is cut there: what follows it is taken as the host, with no port
   * and the path "/".
   */
  lemma {:induction false} ParseUriDoubleSlashInPath(host: string, digits: string, a: string, b: string)
    requires ':' !in host && '/' !in host && ':' !in digits && '/' !in digits
    requires |a| > 0 && '/' !in a
    requires ':' !in b && '/' !in b
    ensures ParseUri(host + ":" + digits + "/" + a + "//" + b) == Uri(b, None, "/")
  {
    var p := host + ":" + digits + "/" + a;
    var uri := p + "//" + b;
    assert uri == host + ":" + digits + "/" + a + "//" + b;
    assert OccursAt(uri, "//", |p|) by {
      assert uri[|p|..|p| + 2] == "//";
    }
    var k := |host| + 1 + |digits|;
    assert p[k] == '/' && p[k + 1] == a[0];
    assert forall j :: 0 <= j < |p| && j != k ==> p[j] != '/';
    forall j | 0 <= j < |p|
      ensures !OccursAt(uri, "//", j)
    {
      assert uri[j..j + 2] == [uri[j], uri[j + 1]];
      if j == k {
        assert uri[j + 1] == a[0];
      } else {
        assert uri[j] == p[j];
      }
    }
    FindTextFirst(uri, "//", |p|);
    assert StripScheme(uri) == b;
  }

  /** The port and the host both come from the first ':', wherever it lies. */
  lemma HostPortOfColon(a: string, b: string)
    requires ':' !in a
    ensures HostOf(a + ":" + b) == a
    ensures PortOf(a + ":" + b) == Some(Atoi(b))
  {
    FindAfterPrefix(a, ':', b);
    assert (a + ":" + b)[..|a|] == a;
  }

  /** The path is "/" plus everything after the first '/', colons included. */
  lemma PathOfSlash(a: string, b: string)
    requires '/' !in a
    ensures PathOf(a + "/" + b) == "/" + b
  {
    FindAfterPrefix(a, '/', b);
  }

  /**
   * A colon after the first '/' still ends the host and starts the port, so
   * `scheme//host/a:b` gives the host `host/a`, the port `atoi(b)` and the path `/a:b`.
   */
  lemma {:induction false} ParseUriColonInPath(scheme: string, host: string, a: string, b: string)
    requires '/' !in scheme && ':' !in host && '/' !in host && ':' !in a
    ensures ParseUri(scheme + "//" + host + "/" + a + ":" + b) == Uri(host + "/" + a, Some(Atoi(b)), "/" + a + ":" + b)
  {
    var rest := host + "/" + a + ":" + b;
    SchemeThenColon(scheme, host, a, b);
    StripSchemeOf(scheme, rest);
    assert ':' !in host + "/" + a;
    HostPortOfColon(host + "/" + a, b);
    PathPastColon(host, a, b);
  }

  lemma PathPastColon(host: string, a: string, b: string)
    requires '/' !in host
    ensures PathOf(host + "/" + a + ":" + b) == "/" + a + ":" + b
  {
    PathOfSlash(host, a + ":" + b);
    assert host + "/" + a + ":" + b == host + "/" + (a + ":" + b);
    assert "/" + a + ":" + b == "/" + (a + ":" + b);
  }

  lemma SchemeThenColon(scheme: string, host: string, a: string, b: string)
    ensures scheme + "//" + host + "/" + a + ":" + b == scheme + "//" + (host + "/" + a + ":" + b)
  {
    Associative(scheme + "//", host + "/" + a + ":", b);
    Associative(scheme + "//", host + "/" + a, ":");
    Associative(scheme + "//", host + "/", a);
    Associative(scheme + "//", host, "/");
  }

  /** A bare host: no port, the path "/". */
  lemma ParseUriHostOnly(host: string)
    requires ':' !in host && '/' !in host
    ensures ParseUri(host) == Uri(host, None, "/")
  {
    NoSchemeWithoutSlash(host);
  }
}
