/** The introspection surface (crates/evoxy-filter/src/observe.rs): request counters, runtime
    directives behind a bearer token, and the reserved paths that show and change them. */
module Observe {
  import opened Common
  import opened Adapter
  import opened Transform
  import opened Route
  import opened Filter
  import Percent
  import Xfcc

  const RESERVED_PREFIX := "/_evoxy/"
  const METRICS_PATH := "/_evoxy/metrics"
  const ADMIN_PATH := "/_evoxy/admin/directives"
  const EXPLAIN_PREFIX := "/_evoxy/explain"

  // ----- requests from header lists -----

  function HeaderOr(headers: Headers, name: string, other: string): string {
    var v := HeaderValue(headers, name);
    if v.Some? then v.value else other
  }

  /** The request a header list stands for, with the identity Envoy vouches for; `path`
      replaces the header list's own. */
  function RequestFrom(headers: Headers, path: Option<string>, body: string): Request {
    var xfcc := HeaderValue(headers, "x-forwarded-client-cert");
    Request(HeaderOr(headers, ":method", ""),
            if path.Some? then path.value else HeaderOr(headers, ":path", ""),
            headers, body,
            if xfcc.Some? then Xfcc.Parsed(xfcc.value) else NoIdentity)
  }

  /** The value of the first header of exactly this name. */
  function ExactHeader(headers: Headers, name: string): Option<string> {
    if headers == [] then None
    else if headers[0].0 == name then Some(headers[0].1)
    else ExactHeader(headers[1..], name)
  }

  function ReservedPath(headers: Headers): string {
    var v := ExactHeader(headers, ":path");
    if v.Some? then PathOf(v.value) else ""
  }

  function RawQuery(headers: Headers): Option<string> {
    var v := ExactHeader(headers, ":path");
    if v.Some? then QueryOf(v.value) else None
  }

  function ExplainTarget(path: string): Option<string> {
    if EXPLAIN_PREFIX <= path && |path| > |EXPLAIN_PREFIX| && path[|EXPLAIN_PREFIX|] == '/'
    then Some(path[|EXPLAIN_PREFIX|..]) else None
  }

  datatype Place = DataPlane | Metrics | AdminPlane | ExplainOf(target: string)

  /** What a path without its query asks of this surface. */
  function PlaceOf(path: string): Place {
    if !(RESERVED_PREFIX <= path) then DataPlane
    else if path == METRICS_PATH then Metrics
    else if path == ADMIN_PATH then AdminPlane
    else
      match ExplainTarget(path)
      case Some(target) => ExplainOf(target)
      case None => DataPlane
  }

  /** The requests that are answered here. */
  predicate Reserved(headers: Headers) {
    PlaceOf(ReservedPath(headers)) != DataPlane
  }

  // ----- the token -----

  function Bearer(headers: Headers): Option<string> {
    match HeaderValue(headers, "authorization")
    case None => None
    case Some(auth) =>
      match SplitOnce(auth, ' ')
      case None => None
      case Some(r) => if EqIgnoreCase(r.0, "bearer") then Some(Trim(r.1)) else None
  }

  lemma Differs(diff: bv8, x: bv8, y: bv8)
    ensures diff | (x ^ y) == 0 <==> diff == 0 && x == y
  {
  }

  /** The comparison that looks at every byte: it tells equality. */
  method ConstantTimeEq(a: seq<bv8>, b: seq<bv8>) returns (equal: bool)
    ensures equal <==> a == b
  {
    if |a| != |b| {
      return false;
    }
    var diff: bv8 := 0;
    for i := 0 to |a|
      invariant diff == 0 <==> a[..i] == b[..i]
    {
      Differs(diff, a[i], b[i]);
      diff := diff | (a[i] ^ b[i]);
      assert a[..i + 1] == a[..i] + [a[i]] && b[..i + 1] == b[..i] + [b[i]];
    }
    assert a[..|a|] == a && b[..|b|] == b;
    equal := diff == 0;
  }

  /** Four bits. */
  function Nibble(n: int): (r: bv8)
    requires 0 <= n < 16
    ensures r <= 15
  {
    if n == 0 then 0
    else if n == 1 then 1
    else if n == 2 then 2
    else if n == 3 then 3
    else if n == 4 then 4
    else if n == 5 then 5
    else if n == 6 then 6
    else if n == 7 then 7
    else if n == 8 then 8
    else if n == 9 then 9
    else if n == 10 then 10
    else if n == 11 then 11
    else if n == 12 then 12
    else if n == 13 then 13
    else if n == 14 then 14
    else 15
  }

  function ByteBits(b: Percent.Byte): bv8 {
    (Nibble(b / 16) << 4) | Nibble(b % 16)
  }

  function Bits(bs: seq<Percent.Byte>): (r: seq<bv8>)
    ensures |r| == |bs|
  {
    seq(|bs|, i requires 0 <= i < |bs| => ByteBits(bs[i]))
  }

  function Bytes(s: string): seq<bv8> {
    Bits(Percent.Utf8(s))
  }

  lemma HalvesApart(x: bv8, y: bv8, v: bv8, w: bv8)
    requires x <= 15 && y <= 15 && v <= 15 && w <= 15
    requires (x << 4) | y == (v << 4) | w
    ensures x == v && y == w
  {
  }

  lemma NibbleApart(m: int, n: int)
    requires 0 <= m < 16 && 0 <= n < 16 && Nibble(m) == Nibble(n)
    ensures m == n
  {
  }

  lemma BitsApart(a: Percent.Byte, b: Percent.Byte)
    requires ByteBits(a) == ByteBits(b)
    ensures a == b
  {
    HalvesApart(Nibble(a / 16), Nibble(a % 16), Nibble(b / 16), Nibble(b % 16));
    NibbleApart(a / 16, b / 16);
    NibbleApart(a % 16, b % 16);
  }

  lemma BitsInjective(a: seq<Percent.Byte>, b: seq<Percent.Byte>)
    requires Bits(a) == Bits(b)
    ensures a == b
  {
    assert |Bits(a)| == |Bits(b)|;
    forall i | 0 <= i < |a| ensures a[i] == b[i] {
      assert Bits(a)[i] == Bits(b)[i];
      BitsApart(a[i], b[i]);
    }
  }

  lemma BytesInjective(s: string, t: string)
    requires Bytes(s) == Bytes(t)
    ensures s == t
  {
    BitsInjective(Percent.Utf8(s), Percent.Utf8(t));
    Percent.FromUtf8Of(s);
    Percent.FromUtf8Of(t);
  }

  /** A request is authorized when a token is configured and it bears exactly that token. */
  predicate Authorized(token: Option<string>, headers: Headers) {
    token.Some? && Bearer(headers) == token
  }

  method CheckToken(token: Option<string>, headers: Headers) returns (authorized: bool)
    ensures authorized <==> Authorized(token, headers)
  {
    authorized := false;
    var got := Bearer(headers);
    if token.Some? && got.Some? {
      authorized := ConstantTimeEq(Bytes(got.value), Bytes(token.value));
      if authorized { BytesInjective(got.value, token.value); }
    }
  }

  // ----- directives -----

  function ParseBool(value: string): Option<bool> {
    if value == "true" || value == "1" then Some(true)
    else if value == "false" || value == "0" then Some(false)
    else None
  }

  /** The value one query part gives the decision header switch, if it gives one. */
  function Setting(part: string): Option<bool> {
    match SplitOnce(part, '=')
    case None => None
    case Some(kv) => if kv.0 == "emit_decision" then ParseBool(kv.1) else None
  }

  function Settings(parts: seq<string>): seq<bool> {
    if parts == [] then []
    else (if Setting(parts[0]).Some? then [Setting(parts[0]).value] else []) + Settings(parts[1..])
  }

  function LastOr(values: seq<bool>, initial: bool): bool {
    if values == [] then initial else values[|values| - 1]
  }

  lemma SettingsNext(parts: seq<string>, i: nat, emit: bool)
    requires i < |parts|
    ensures var on, rest := Setting(parts[i]), Settings(parts[i + 1..]);
            && LastOr(Settings(parts[i..]), emit) == LastOr(rest, if on.Some? then on.value else emit)
            && |Settings(parts[i..])| == |rest| + (if on.Some? then 1 else 0)
  {
    assert parts[i..][0] == parts[i] && parts[i..][1..] == parts[i + 1..];
  }

  /** The values a request's query gives the switch, in order. */
  function QuerySettings(headers: Headers): seq<bool> {
    var query := RawQuery(headers);
    if query.Some? then Settings(Split(query.value, '&')) else []
  }

  // ----- the surface -----

  datatype Surface = Surface(routed: nat, rejected: nat, emit: bool)

  datatype ReservedReply =
    | MetricsSnapshot(requests: nat, routed: nat, rejected: nat)
    | DirectivesSnapshot(emit: bool)
    | Unauthorized
    | Explanation(what: Explained)
  {
    function Status(): nat {
      if Unauthorized? then 403 else 200
    }
  }

  /** An admin request leaves the switch at its query's last value, if it is authorized. */
  function AdminSurface(token: Option<string>, s: Surface, headers: Headers): Surface {
    if Authorized(token, headers) then s.(emit := LastOr(QuerySettings(headers), s.emit)) else s
  }

  /** What an admin request shows: the directives as it leaves them. */
  function AdminReplied(token: Option<string>, s: Surface, headers: Headers): ReservedReply {
    if Authorized(token, headers) then DirectivesSnapshot(AdminSurface(token, s, headers).emit) else Unauthorized
  }

  function ReservedReplied(token: Option<string>, f: Brain, s: Surface, headers: Headers): Option<ReservedReply> {
    RepliedAt(PlaceOf(ReservedPath(headers)), token, f, s, headers)
  }

  function RepliedAt(place: Place, token: Option<string>, f: Brain, s: Surface, headers: Headers)
    : Option<ReservedReply>
  {
    if place == AdminPlane then Some(AdminReplied(token, s, headers)) else Shown(place, f, s, headers)
  }

  /** What the read-only places show. */
  function Shown(place: Place, f: Brain, s: Surface, headers: Headers): (r: Option<ReservedReply>)
    ensures r.None? <==> place == DataPlane || place == AdminPlane
  {
    match place
    case Metrics => Some(MetricsSnapshot(s.routed + s.rejected, s.routed, s.rejected))
    case ExplainOf(target) => Some(ExplainReply(f, headers, target))
    case _ => None
  }

  function ReservedSurface(token: Option<string>, s: Surface, headers: Headers): Surface {
    if PlaceOf(ReservedPath(headers)) == AdminPlane then AdminSurface(token, s, headers) else s
  }

  /** What the brain would do with the path behind the explain prefix. */
  function ExplainReply(f: Brain, headers: Headers, target: string): ReservedReply {
    Explanation(ExplainRequest(f, RequestFrom(headers, Some(target), "")))
  }

  /** The decision a response header reports, when it is switched on and the request resolves. */
  function DecisionShown(f: Brain, s: Surface, headers: Headers): Option<Resolved> {
    if !s.emit then None else
      match FromFilter(RequestFrom(headers, None, ""))
      case None => None
      case Some(ctx) =>
        match f.router.resolve(ctx)
        case Ok(p) => Some(p)
        case Err(_) => None
  }

  class Observe {
    var routed: nat
    var rejected: nat
    var emit: bool
    const token: Option<string>

    function View(): Surface
      reads this
    {
      Surface(routed, rejected, emit)
    }

    constructor (token: Option<string>, emit: bool)
      ensures View() == Surface(0, 0, emit) && this.token == token
    {
      routed, rejected := 0, 0;
      this.emit, this.token := emit, token;
    }

    method RecordRouted()
      modifies this
      ensures View() == old(View()).(routed := old(routed) + 1)
    {
      routed := routed + 1;
    }

    method RecordRejected()
      modifies this
      ensures View() == old(View()).(rejected := old(rejected) + 1)
    {
      rejected := rejected + 1;
    }

    /** Applies every recognised setting in turn and counts them. */
    method ApplyQuery(query: string) returns (applied: nat)
      modifies this
      ensures View() == old(View()).(emit := LastOr(Settings(Split(query, '&')), old(emit)))
      ensures applied == |Settings(Split(query, '&'))|
    {
      var parts := Split(query, '&');
      applied := 0;
      assert parts[0..] == parts;
      for i := 0 to |parts|
        invariant LastOr(Settings(parts[i..]), emit) == LastOr(Settings(parts), old(emit))
        invariant applied + |Settings(parts[i..])| == |Settings(parts)|
        invariant routed == old(routed) && rejected == old(rejected)
      {
        var on := Setting(parts[i]);
        SettingsNext(parts, i, emit);
        if on.Some? {
          emit := on.value;
          applied := applied + 1;
        }
      }
    }

    method AdminReply(headers: Headers) returns (reply: ReservedReply)
      modifies this
      ensures reply == AdminReplied(token, old(View()), headers)
      ensures View() == AdminSurface(token, old(View()), headers)
    {
      var authorized := CheckToken(token, headers);
      if !authorized {
        return Unauthorized;
      }
      var query := RawQuery(headers);
      if query.Some? {
        var _ := ApplyQuery(query.value);
      }
      reply := DirectivesSnapshot(emit);
    }

    method Reply(f: Brain, headers: Headers) returns (reply: Option<ReservedReply>)
      modifies this
      ensures reply == ReservedReplied(token, f, old(View()), headers)
      ensures View() == ReservedSurface(token, old(View()), headers)
    {
      var place := PlaceOf(ReservedPath(headers));
      if place == AdminPlane {
        var admin := AdminReply(headers);
        return Some(admin);
      }
      reply := Shown(place, f, View(), headers);
    }
  }

  /** A reserved reply is given exactly on the three kinds of reserved path, and never touches
      the counters. */
  lemma ReservedIff(token: Option<string>, f: Brain, s: Surface, headers: Headers)
    ensures ReservedReplied(token, f, s, headers).Some? <==> Reserved(headers)
    ensures var next := ReservedSurface(token, s, headers);
            && next.routed == s.routed && next.rejected == s.rejected
            && (!Reserved(headers) ==> next == s)
  {
  }

  /** A reserved request is forbidden exactly when it comes to the admin plane without the
      token, and then it changes nothing. */
  lemma ForbiddenIff(token: Option<string>, f: Brain, s: Surface, headers: Headers)
    requires Reserved(headers)
    ensures var shown := ReservedReplied(token, f, s, headers);
            && shown.Some?
            && (shown.value.Status() == 403 <==>
                ReservedPath(headers) == ADMIN_PATH && !Authorized(token, headers))
            && (shown.value.Status() == 403 ==> ReservedSurface(token, s, headers) == s)
  {
    AdminPathOnly(headers);
  }

  /** The admin plane is reached by one path only, with any query. */
  lemma AdminPathOnly(headers: Headers)
    ensures PlaceOf(ReservedPath(headers)) == AdminPlane <==> ReservedPath(headers) == ADMIN_PATH
  {
    AdminPathIsReserved();
  }

  // ----- runs of introspection requests -----

  function SurfaceAfter(token: Option<string>, s: Surface, run: seq<Headers>): Surface {
    if run == [] then s
    else ReservedSurface(token, SurfaceAfter(token, s, run[..|run| - 1]), run[|run| - 1])
  }

  /** The recognised values of the authorized admin requests, in order. */
  function AuthorizedSettings(token: Option<string>, run: seq<Headers>): seq<bool> {
    if run == [] then []
    else
      var last := run[|run| - 1];
      AuthorizedSettings(token, run[..|run| - 1])
      + if PlaceOf(ReservedPath(last)) == AdminPlane && Authorized(token, last) then QuerySettings(last) else []
  }

  lemma AdminPathIsReserved()
    ensures RESERVED_PREFIX <= ADMIN_PATH && ADMIN_PATH != METRICS_PATH
  {
    assert ADMIN_PATH[..|RESERVED_PREFIX|] == RESERVED_PREFIX;
  }

  /** After every run of requests the switch holds the last recognised value an authorized admin
      request carried, or its initial value when there was none; no such request moves a
      counter, and without a configured token nothing is ever changed. */
  lemma {:induction false} SwitchHoldsLast(token: Option<string>, s: Surface, run: seq<Headers>)
    ensures SurfaceAfter(token, s, run) == s.(emit := LastOr(AuthorizedSettings(token, run), s.emit))
    ensures token.None? ==> AuthorizedSettings(token, run) == []
  {
    if run != [] {
      var front, last := run[..|run| - 1], run[|run| - 1];
      SwitchHoldsLast(token, s, front);
      LastOrConcat(AuthorizedSettings(token, front), QuerySettings(last), s.emit);
    }
  }

  lemma LastOrConcat(a: seq<bool>, b: seq<bool>, initial: bool)
    ensures LastOr(a + b, initial) == LastOr(b, LastOr(a, initial))
    ensures a + [] == a
  {
    if b == [] { assert a + b == a; }
  }

  // ----- which tokens can be presented -----

  lemma {:induction false} TrimEndTrimmed(s: string)
    ensures TrimEnd(TrimEnd(s)) == TrimEnd(s)
    ensures s != "" && !IsSpace(s[0]) ==> TrimEnd(s) != "" && TrimEnd(s)[0] == s[0]
    decreases |s|
  {
    if s != "" && IsSpace(s[|s| - 1]) { TrimEndTrimmed(s[..|s| - 1]); }
  }

  lemma {:induction false} TrimStartTrimmed(s: string)
    ensures TrimStart(s) == "" || !IsSpace(TrimStart(s)[0])
  {
    if s != "" && IsSpace(s[0]) { TrimStartTrimmed(s[1..]); }
  }

  lemma TrimTrimmed(s: string)
    ensures Trim(Trim(s)) == Trim(s)
  {
    TrimStartTrimmed(s);
    TrimEndTrimmed(TrimStart(s));
    var t := Trim(s);
    assert TrimStart(t) == t;
  }

  /** A configured token can be presented exactly when it has no white space at its ends: the
      presented one is trimmed, the configured one is not. */
  lemma PresentableIff(token: string)
    ensures (exists headers :: Authorized(Some(token), headers)) <==> Trim(token) == token
  {
    if Trim(token) == token {
      var auth := "bearer" + [' '] + token;
      SplitOnceAt("bearer", ' ', token);
      assert Bearer([("authorization", auth)]) == Some(token);
      assert Authorized(Some(token), [("authorization", auth)]);
    }
    if exists headers :: Authorized(Some(token), headers) {
      var headers :| Authorized(Some(token), headers);
      TrimTrimmed(SplitOnce(HeaderValue(headers, "authorization").value, ' ').value.1);
    }
  }
}
