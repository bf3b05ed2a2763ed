/** The upstream authority of a placement's endpoint URL (crates/evoxy-route/src/lib.rs). */
module Authority {
  import opened Common
  import opened Route

  /** A text up to the path, query or fragment. */
  predicate NoPath(s: string) {
    Free(s, '/') && Free(s, '?') && Free(s, '#')
  }

  predicate PathTail(s: string) {
    s == "" || s[0] == '/' || s[0] == '?' || s[0] == '#'
  }

  /** A host name, or a bracketed IPv6 literal. */
  ghost predicate Host(s: string) {
    s != "" && NoPath(s)
    && ((Free(s, ':') && s[0] != '[') || (exists inner :: Free(inner, ']') && s == "[" + inner + "]"))
  }

  function DefaultPort(scheme: string): string {
    if scheme == "https" then ":443" else if scheme == "http" then ":80" else ""
  }

  lemma {:induction false} SchemeSplit(scheme: string, rest: string)
    requires Free(scheme, ':')
    ensures SplitScheme(scheme + ("://" + rest)) == Some((scheme, rest))
  {
    var s := scheme + ("://" + rest);
    if scheme == "" {
      assert s[..3] == "://" && s[3..] == rest;
    } else {
      assert s[..3][0] == s[0] && s[0] == scheme[0] && scheme[0] in scheme;
      assert "://"[0] == ':';
      SchemeSplit(scheme[1..], rest);
      assert s[1..] == scheme[1..] + ("://" + rest);
      assert [scheme[0]] + scheme[1..] == scheme;
    }
  }

  lemma {:induction false} UntilPathIs(authority: string, tail: string)
    requires NoPath(authority) && PathTail(tail)
    ensures UntilPath(authority + tail) == authority
  {
    var s := authority + tail;
    if authority == "" {
      assert s == tail;
    } else {
      assert s[0] == authority[0] && authority[0] in authority;
      UntilPathIs(authority[1..], tail);
      assert s[1..] == authority[1..] + tail;
      assert [authority[0]] + authority[1..] == authority;
    }
  }

  lemma BareHostPort(host: string, port: string)
    requires host != "" && Free(host, ':') && host[0] != '['
    ensures !HasPort(host) && HasPort(host + (":" + port))
  {
    var s := host + (":" + port);
    assert s[0] == host[0] && s[|host|] == ':';
  }

  lemma BracketHostPort(inner: string, port: string)
    requires Free(inner, ']')
    ensures !HasPort("[" + inner + "]") && HasPort("[" + inner + "]" + (":" + port))
  {
    var host := "[" + inner + "]";
    var s := host + (":" + port);
    assert host[1..] == inner + [']'] + "";
    assert s[1..] == inner + [']'] + (":" + port);
    SplitOnceAt(inner, ']', "");
    SplitOnceAt(inner, ']', ":" + port);
  }

  lemma HostPort(host: string, port: string)
    requires Host(host)
    ensures !HasPort(host) && HasPort(host + (":" + port))
  {
    if Free(host, ':') && host[0] != '[' {
      BareHostPort(host, port);
    } else {
      var inner :| Free(inner, ']') && host == "[" + inner + "]";
      BracketHostPort(inner, port);
    }
  }

  /** The authority of a URL: its host with the explicit port, which always wins, or with the
      scheme's default port; path, query and fragment are dropped, and a bracketed literal's
      colons are no port. */
  lemma AuthorityIs(scheme: string, host: string, port: string, tail: string)
    requires Free(scheme, ':') && Host(host) && NoPath(port) && PathTail(tail)
    ensures AuthorityOf(scheme + ("://" + (host + tail))) == Some(host + DefaultPort(scheme))
    ensures AuthorityOf(scheme + ("://" + (host + (":" + port) + tail))) == Some(host + (":" + port))
  {
    var full := host + (":" + port);
    HostPort(host, port);
    SchemeSplit(scheme, host + tail);
    UntilPathIs(host, tail);
    SchemeSplit(scheme, full + tail);
    FullNoPath(host, port);
    UntilPathIs(full, tail);
    assert host + "" == host;
  }

  lemma FullNoPath(host: string, port: string)
    requires NoPath(host) && NoPath(port)
    ensures NoPath(host + (":" + port))
  {
  }

  predicate SchemeAt(s: string, i: int) {
    0 <= i && i + 3 <= |s| && s[i..i + 3] == "://"
  }

  /** There is a scheme exactly when the endpoint holds `://`. */
  lemma {:induction false} SchemeIff(s: string)
    ensures SplitScheme(s).Some? <==> exists i :: SchemeAt(s, i)
  {
    if |s| >= 3 && s[..3] == "://" {
      assert SchemeAt(s, 0);
    } else if |s| >= 3 {
      SchemeIff(s[1..]);
      forall i ensures SchemeAt(s[1..], i) ==> SchemeAt(s, i + 1) {
        if SchemeAt(s[1..], i) { assert s[1..][i..i + 3] == s[i + 1..i + 4]; }
      }
      forall i ensures SchemeAt(s, i) ==> SchemeAt(s[1..], i - 1) {
        if SchemeAt(s, i) {
          assert s[0..3] == s[..3];
          assert s[1..][i - 1..i + 2] == s[i..i + 3];
        }
      }
    }
  }

  /** An endpoint that holds no `://` is its host and port as they stand. */
  lemma BareAuthorityIs(host: string, port: string, tail: string)
    requires Host(host) && NoPath(port) && PathTail(tail)
    ensures (forall i :: !SchemeAt(host + tail, i)) ==> AuthorityOf(host + tail) == Some(host)
    ensures (forall i :: !SchemeAt(host + (":" + port) + tail, i)) ==>
              AuthorityOf(host + (":" + port) + tail) == Some(host + (":" + port))
  {
    HostPort(host, port);
    SchemeIff(host + tail);
    UntilPathIs(host, tail);
    FullNoPath(host, port);
    SchemeIff(host + (":" + port) + tail);
    UntilPathIs(host + (":" + port), tail);
  }

  /** An endpoint names no authority exactly when nothing stands between its scheme, if any, and
      its path, query or end. */
  lemma NoAuthorityIff(endpoint: string)
    ensures var s := SplitScheme(endpoint);
            AuthorityOf(endpoint) == None <==> PathTail(if s.Some? then s.value.1 else endpoint)
  {
  }
}
