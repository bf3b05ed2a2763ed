/** The filter brain (crates/evoxy-filter/src/lib.rs): one request becomes a sequence of
    effects on Envoy, and the effects become one forwarded request or one local reply. */
module Filter {
  import opened Common
  import opened Adapter
  import opened Transform
  import opened Route

  /** One call on the Envoy callbacks. */
  datatype Effect =
    | SetCluster(cluster: string)
    | SetHost(host: string)
    | SetMethod(verb: string)
    | SetPath(path: string)
    | SetBody(body: string)
    | SetHeader(name: string, value: string)
    | DropHeader(name: string)
    | LocalReply(status: nat, text: string)

  /** The callbacks, recording what was called. */
  class EnvoyActions {
    var calls: seq<Effect>

    constructor ()
      ensures calls == []
    {
      calls := [];
    }

    method Perform(e: Effect)
      modifies this
      ensures calls == old(calls) + [e]
    {
      calls := calls + [e];
    }
  }

  datatype Decision = ContinueUpstream | StoppedWithLocalReply

  datatype Brain = Brain(
    router: Router,
    requireMtls: bool,
    passthrough: set<string>,
    pathHeader: Option<string>)

  // ----- path partitioning -----

  /** The first segment of a path without query, and the rest; None when that segment is
      empty or nothing follows it. */
  function CutFirst(path: string): Option<(string, string)> {
    match SplitOnce(if path != "" && path[0] == '/' then path[1..] else path, '/')
    case None => None
    case Some(r) => if r.0 == "" then None else Some((r.0, "/" + r.1))
  }

  function QueryText(query: Option<string>): string {
    if query.Some? then ['?'] + query.value else ""
  }

  /** The first path segment, and the rest of the path with its query. */
  function SplitLeadingSegment(pathAndQuery: string): Option<(string, string)> {
    match CutFirst(PathOf(pathAndQuery))
    case None => None
    case Some(r) => Some((r.0, r.1 + QueryText(QueryOf(pathAndQuery))))
  }

  function RewriteForPath(f: Brain, req: Request): Option<Request> {
    if f.pathHeader.None? then None else
      match SplitLeadingSegment(req.pathAndQuery)
      case None => None
      case Some(r) => Some(Moved(req, f.pathHeader.value, r.0, r.1))
  }

  /** The request with another path and the tenant in a header behind the client's own. */
  function Moved(req: Request, header: string, tenant: string, rest: string): Request {
    req.(pathAndQuery := rest, headers := req.headers + [(header, tenant)])
  }

  function Seen(f: Brain, req: Request): Request {
    var r := RewriteForPath(f, req);
    if r.Some? then r.value else req
  }

  // ----- handling -----

  const UnsupportedMethod := ErrorReply(400, "unsupported_method")
  const MtlsRequired := ErrorReply(403, "mtls_required_for_mutation")

  function ReplyEffects(r: Reply): seq<Effect> {
    [LocalReply(r.status, r.body)]
  }

  function HeaderEffect(op: HeaderOp): Effect {
    match op
    case AddHeader(name, value) => SetHeader(name, value)
    case ReplaceHeader(name, value) => SetHeader(name, value)
    case RemoveHeader(name) => DropHeader(name)
  }

  function HeaderEffects(ops: seq<HeaderOp>): seq<Effect> {
    if ops == [] then [] else [HeaderEffect(ops[0])] + HeaderEffects(ops[1..])
  }

  function HostEffects(host: Option<string>): seq<Effect> {
    if host.Some? then [SetHost(host.value)] else []
  }

  function ForwardEffects(forward: Forward): seq<Effect> {
    match forward
    case Immediate(reply) => ReplyEffects(reply)
    case Upstream(p) =>
      [SetCluster(p.cluster)] + HostEffects(p.upstreamHost)
      + [SetMethod(p.verb), SetPath(p.path), SetBody(p.body)] + HeaderEffects(p.headerOps)
  }

  predicate RefusedForMtls(f: Brain, ctx: Ctx, req: Request) {
    f.requireMtls && ctx.endpoint.IsWrite() && !req.identity.presented
  }

  function PassEffects(f: Brain, req: Request): seq<Effect> {
    var r := RewriteForPath(f, req);
    if r.Some? then [SetPath(r.value.pathAndQuery)] else []
  }

  function HandleEffects(f: Brain, req: Request): seq<Effect> {
    var seen := Seen(f, req);
    match FromFilter(seen)
    case None => ReplyEffects(UnsupportedMethod)
    case Some(ctx) =>
      if RefusedForMtls(f, ctx, seen) then ReplyEffects(MtlsRequired)
      else if ctx.logicalIndex in f.passthrough then PassEffects(f, req)
      else ForwardEffects(Prepare(f.router, ctx))
  }

  function Decided(effects: seq<Effect>): Decision {
    if exists i :: 0 <= i < |effects| && effects[i].LocalReply? then StoppedWithLocalReply else ContinueUpstream
  }

  method ApplyHeaderOps(ops: seq<HeaderOp>, actions: EnvoyActions)
    modifies actions
    ensures actions.calls == old(actions.calls) + HeaderEffects(ops)
  {
    assert ops[0..] == ops;
    for i := 0 to |ops|
      invariant actions.calls + HeaderEffects(ops[i..]) == old(actions.calls) + HeaderEffects(ops)
    {
      assert ops[i..][0] == ops[i] && ops[i..][1..] == ops[i + 1..];
      ghost var before := actions.calls;
      actions.Perform(HeaderEffect(ops[i]));
      assert before + HeaderEffects(ops[i..]) == actions.calls + HeaderEffects(ops[i + 1..]);
    }
  }

  method ApplyForward(forward: Forward, actions: EnvoyActions) returns (d: Decision)
    modifies actions
    ensures actions.calls == old(actions.calls) + ForwardEffects(forward)
    ensures d == if forward.Upstream? then ContinueUpstream else StoppedWithLocalReply
  {
    match forward {
      case Upstream(p) =>
        actions.Perform(SetCluster(p.cluster));
        if p.upstreamHost.Some? {
          actions.Perform(SetHost(p.upstreamHost.value));
        }
        actions.Perform(SetMethod(p.verb));
        actions.Perform(SetPath(p.path));
        actions.Perform(SetBody(p.body));
        ApplyHeaderOps(p.headerOps, actions);
        d := ContinueUpstream;
      case Immediate(reply) =>
        actions.Perform(LocalReply(reply.status, reply.body));
        d := StoppedWithLocalReply;
    }
  }

  lemma {:induction false} HeadersNeverReply(ops: seq<HeaderOp>)
    ensures forall i :: 0 <= i < |HeaderEffects(ops)| ==> !HeaderEffects(ops)[i].LocalReply?
  {
    if ops != [] { HeadersNeverReply(ops[1..]); }
  }

  /** A forwarded request issues no reply, and a reply is the last thing issued. */
  lemma ForwardDecided(forward: Forward)
    ensures Decided(ForwardEffects(forward)) == if forward.Upstream? then ContinueUpstream else StoppedWithLocalReply
  {
    match forward {
      case Upstream(p) => HeadersNeverReply(p.headerOps);
      case Immediate(reply) => assert ForwardEffects(forward)[0].LocalReply?;
    }
  }

  method Handle(f: Brain, req: Request, actions: EnvoyActions) returns (d: Decision)
    modifies actions
    ensures actions.calls == old(actions.calls) + HandleEffects(f, req)
    ensures d == Decided(HandleEffects(f, req))
  {
    var rewritten := RewriteForPath(f, req);
    var seen := if rewritten.Some? then rewritten.value else req;
    var ctx := FromFilter(seen);
    if ctx.None? {
      actions.Perform(LocalReply(UnsupportedMethod.status, UnsupportedMethod.body));
      assert HandleEffects(f, req)[0].LocalReply?;
      return StoppedWithLocalReply;
    }
    if f.requireMtls && ctx.value.endpoint.IsWrite() && !seen.identity.presented {
      actions.Perform(LocalReply(MtlsRequired.status, MtlsRequired.body));
      assert HandleEffects(f, req)[0].LocalReply?;
      return StoppedWithLocalReply;
    }
    if ctx.value.logicalIndex in f.passthrough {
      if rewritten.Some? {
        actions.Perform(SetPath(seen.pathAndQuery));
      }
      return ContinueUpstream;
    }
    var forward := Prepare(f.router, ctx.value);
    ForwardDecided(forward);
    d := ApplyForward(forward, actions);
  }

  // ----- the header phase -----

  function RouteEffects(f: Brain, req: Request): seq<Effect> {
    match FromFilter(Seen(f, req))
    case None => ReplyEffects(UnsupportedMethod)
    case Some(ctx) =>
      if ctx.logicalIndex in f.passthrough then PassEffects(f, req)
      else TargetEffects(ResolveTarget(f.router, ctx))
  }

  type Resolution = Result<(string, Option<string>), Reply>

  function TargetEffects(r: Resolution): seq<Effect> {
    match r
    case Ok(target) => [SetCluster(target.0)] + HostEffects(target.1)
    case Err(reply) => ReplyEffects(reply)
  }

  method RouteHeaders(f: Brain, req: Request, actions: EnvoyActions) returns (d: Decision)
    modifies actions
    ensures actions.calls == old(actions.calls) + RouteEffects(f, req)
    ensures d == Decided(RouteEffects(f, req))
  {
    var rewritten := RewriteForPath(f, req);
    var seen := if rewritten.Some? then rewritten.value else req;
    var ctx := FromFilter(seen);
    if ctx.None? {
      actions.Perform(LocalReply(UnsupportedMethod.status, UnsupportedMethod.body));
      assert RouteEffects(f, req)[0].LocalReply?;
      return StoppedWithLocalReply;
    }
    if ctx.value.logicalIndex in f.passthrough {
      if rewritten.Some? {
        actions.Perform(SetPath(seen.pathAndQuery));
      }
      return ContinueUpstream;
    }
    d := ApplyTarget(ResolveTarget(f.router, ctx.value), actions);
  }

  method ApplyTarget(r: Resolution, actions: EnvoyActions) returns (d: Decision)
    modifies actions
    ensures actions.calls == old(actions.calls) + TargetEffects(r)
    ensures d == Decided(TargetEffects(r))
  {
    match r {
      case Ok(target) =>
        actions.Perform(SetCluster(target.0));
        if target.1.Some? {
          actions.Perform(SetHost(target.1.value));
        }
        d := ContinueUpstream;
      case Err(reply) =>
        actions.Perform(LocalReply(reply.status, reply.body));
        assert TargetEffects(r)[0].LocalReply?;
        d := StoppedWithLocalReply;
    }
  }

  // ----- the phases that look at the request as it came -----

  predicate IsWrite(f: Brain, req: Request) {
    var ctx := FromFilter(req);
    ctx.Some? && ctx.value.endpoint.IsWrite()
  }

  function ShapeResponse(f: Brain, req: Request, upstream: string): Option<string> {
    match FromFilter(req)
    case None => None
    case Some(ctx) => ShapeReadResponse(f.router, ctx, upstream)
  }

  function ExplainRequest(f: Brain, req: Request): Explained {
    match FromFilter(req)
    case None => Rejects(400, "unsupported_method")
    case Some(ctx) => Explain(f.router, ctx)
  }

  // ----- what the effects amount to -----

  datatype Edit = Put(name: string, value: string) | Drop(name: string)

  /** One handled request: the request Envoy forwards, with the edits to the client's own
      headers, or the reply the client gets. */
  datatype Outcome =
    | Forwarded(verb: string, path: string, body: string,
                cluster: Option<string>, host: Option<string>, edits: seq<Edit>)
    | Replied(reply: Reply)

  function Untouched(req: Request): Outcome {
    Forwarded(req.verb, req.pathAndQuery, req.body, None, None, [])
  }

  function Take(o: Outcome, e: Effect): Outcome {
    if e.LocalReply? then Replied(Reply(e.status, e.text))
    else if o.Replied? then o
    else
      match e
      case SetCluster(cluster) => o.(cluster := Some(cluster))
      case SetHost(host) => o.(host := Some(host))
      case SetMethod(verb) => o.(verb := verb)
      case SetPath(path) => o.(path := path)
      case SetBody(body) => o.(body := body)
      case SetHeader(name, value) => o.(edits := o.edits + [Put(name, value)])
      case DropHeader(name) => o.(edits := o.edits + [Drop(name)])
  }

  function TakeAll(o: Outcome, effects: seq<Effect>): Outcome
    decreases effects
  {
    if effects == [] then o else TakeAll(Take(o, effects[0]), effects[1..])
  }

  function Handled(f: Brain, req: Request): Outcome {
    TakeAll(Untouched(req), HandleEffects(f, req))
  }

  function Edits(ops: seq<HeaderOp>): seq<Edit> {
    if ops == [] then []
    else [if ops[0].RemoveHeader? then Drop(ops[0].name) else Put(ops[0].name, ops[0].value)] + Edits(ops[1..])
  }

  lemma {:induction false} TakeConcat(o: Outcome, a: seq<Effect>, b: seq<Effect>)
    ensures TakeAll(o, a + b) == TakeAll(TakeAll(o, a), b)
    decreases a
  {
    if a == [] {
      assert a + b == b;
    } else {
      TakeConcat(Take(o, a[0]), a[1..], b);
      assert (a + b)[1..] == a[1..] + b;
    }
  }

  lemma {:induction false} TakeHeaders(o: Outcome, ops: seq<HeaderOp>)
    requires o.Forwarded?
    ensures TakeAll(o, HeaderEffects(ops)) == o.(edits := o.edits + Edits(ops))
    decreases ops
  {
    if ops == [] {
      assert o.edits + [] == o.edits;
    } else {
      var next := Take(o, HeaderEffect(ops[0]));
      TakeHeaders(next, ops[1..]);
      assert ([HeaderEffect(ops[0])] + HeaderEffects(ops[1..]))[1..] == HeaderEffects(ops[1..]);
      assert next.edits + Edits(ops[1..]) == o.edits + Edits(ops);
    }
  }

  lemma TakeOne(o: Outcome, e: Effect)
    ensures TakeAll(o, [e]) == Take(o, e) && TakeAll(o, []) == o
  {
    assert [e][1..] == [];
  }

  lemma TakeThree(o: Outcome, a: Effect, b: Effect, c: Effect)
    ensures TakeAll(o, [a, b, c]) == Take(Take(Take(o, a), b), c)
  {
    assert [a, b, c][1..] == [b, c] && [b, c][1..] == [c];
    TakeOne(Take(Take(o, a), b), c);
  }

  function ForwardOutcome(forward: Forward): Outcome {
    match forward
    case Immediate(reply) => Replied(reply)
    case Upstream(p) => Forwarded(p.verb, p.path, p.body, Some(p.cluster), p.upstreamHost, Edits(p.headerOps))
  }

  /** Issuing the effects of a prepared request on any request leaves exactly the prepared
      one: nothing of the client's line or body survives. */
  lemma ForwardTaken(req: Request, forward: Forward)
    ensures TakeAll(Untouched(req), ForwardEffects(forward)) == ForwardOutcome(forward)
  {
    match forward {
      case Immediate(reply) => TakeOne(Untouched(req), LocalReply(reply.status, reply.body));
      case Upstream(p) =>
        var routed := [SetCluster(p.cluster)] + HostEffects(p.upstreamHost);
        var line := [SetMethod(p.verb), SetPath(p.path), SetBody(p.body)];
        var o := Untouched(req);
        TakeConcat(o, routed + line, HeaderEffects(p.headerOps));
        TakeConcat(o, routed, line);
        TakeConcat(o, [SetCluster(p.cluster)], HostEffects(p.upstreamHost));
        TakeOne(o, SetCluster(p.cluster));
        if p.upstreamHost.Some? { TakeOne(Take(o, SetCluster(p.cluster)), SetHost(p.upstreamHost.value)); }
        TakeThree(TakeAll(o, routed), SetMethod(p.verb), SetPath(p.path), SetBody(p.body));
        TakeHeaders(TakeAll(o, routed + line), p.headerOps);
        assert [] + Edits(p.headerOps) == Edits(p.headerOps);
    }
  }

  /** What a handled request amounts to. */
  lemma HandledIs(f: Brain, req: Request)
    ensures var seen := Seen(f, req);
            Handled(f, req) ==
            match FromFilter(seen)
            case None => Replied(UnsupportedMethod)
            case Some(ctx) =>
              if RefusedForMtls(f, ctx, seen) then Replied(MtlsRequired)
              else if ctx.logicalIndex in f.passthrough then Untouched(req.(pathAndQuery := seen.pathAndQuery))
              else ForwardOutcome(Prepare(f.router, ctx))
  {
    var seen, o := Seen(f, req), Untouched(req);
    var ctx := FromFilter(seen);
    TakeOne(o, LocalReply(UnsupportedMethod.status, UnsupportedMethod.body));
    TakeOne(o, LocalReply(MtlsRequired.status, MtlsRequired.body));
    TakeOne(o, SetPath(seen.pathAndQuery));
    if ctx.Some? { ForwardTaken(req, Prepare(f.router, ctx.value)); }
  }

  /** The returned decision is truthful: the chain is stopped exactly when the client gets a
      reply. */
  lemma DecisionTruthful(f: Brain, req: Request)
    ensures Decided(HandleEffects(f, req)) == StoppedWithLocalReply <==> Handled(f, req).Replied?
  {
    HandledIs(f, req);
    var ctx := FromFilter(Seen(f, req));
    if ctx.None? || RefusedForMtls(f, ctx.value, Seen(f, req)) {
      assert HandleEffects(f, req)[0].LocalReply?;
    } else {
      ForwardDecided(Prepare(f.router, ctx.value));
    }
  }

  /** The request bypasses tenancy. */
  predicate Passes(f: Brain, req: Request) {
    var ctx := FromFilter(Seen(f, req));
    ctx.Some? && !RefusedForMtls(f, ctx.value, Seen(f, req)) && ctx.value.logicalIndex in f.passthrough
  }

  // ----- path tenancy -----

  /** A tenant path segment. */
  predicate TenantSegment(t: string) {
    t != "" && Free(t, '/') && Free(t, '?')
  }

  lemma QuerySplit(pathAndQuery: string)
    ensures pathAndQuery == PathOf(pathAndQuery) + QueryText(QueryOf(pathAndQuery))
    ensures Free(PathOf(pathAndQuery), '?')
  {
    var r := SplitOnce(pathAndQuery, '?');
    if r.Some? {
      assert r.value.0 + ['?'] + r.value.1 == r.value.0 + (['?'] + r.value.1);
    } else {
      assert pathAndQuery + "" == pathAndQuery;
    }
  }

  lemma PrefixSplit(tenant: string, rest: string)
    requires TenantSegment(tenant) && rest != "" && rest[0] == '/'
    ensures PathOf("/" + tenant + rest) == "/" + tenant + PathOf(rest)
    ensures QueryOf("/" + tenant + rest) == QueryOf(rest) && PathOf(rest) != "" && PathOf(rest)[0] == '/'
  {
    QuerySplit(rest);
    Glue("/" + tenant, PathOf(rest), QueryText(QueryOf(rest)));
    SplitQueryText("/" + tenant + PathOf(rest), QueryOf(rest));
  }

  lemma SplitQueryText(path: string, query: Option<string>)
    requires Free(path, '?')
    ensures PathOf(path + QueryText(query)) == path && QueryOf(path + QueryText(query)) == query
  {
    SplitQuery(path, if query.Some? then query.value else "");
  }

  lemma CutPrefixed(tenant: string, path: string)
    requires tenant != "" && Free(tenant, '/') && path != "" && path[0] == '/'
    ensures CutFirst("/" + tenant + path) == Some((tenant, path))
  {
    SplitOnceAt(tenant, '/', path[1..]);
    assert tenant + ['/'] + path[1..] == tenant + path;
    assert ("/" + tenant + path)[1..] == tenant + path;
    assert "/" + path[1..] == path;
  }

  lemma PrefixedIsSplit(tenant: string, rest: string)
    requires TenantSegment(tenant) && rest != "" && rest[0] == '/'
    ensures SplitLeadingSegment("/" + tenant + rest) == Some((tenant, rest))
  {
    PrefixSplit(tenant, rest);
    QuerySplit(rest);
    CutPrefixed(tenant, PathOf(rest));
  }

  lemma CutIsPrefix(path: string)
    requires path != "" && path[0] == '/' && CutFirst(path).Some?
    ensures var r := CutFirst(path).value;
            && r.0 != "" && Free(r.0, '/') && r.1 != "" && r.1[0] == '/'
            && path == "/" + r.0 + r.1
  {
    var r := SplitOnce(path[1..], '/').value;
    Rooted(path, r.0, r.1);
  }

  lemma Rooted(path: string, first: string, more: string)
    requires path != "" && path[0] == '/' && path[1..] == first + ['/'] + more
    ensures path == "/" + first + ("/" + more)
  {
  }

  lemma SplitIsPrefixed(pathAndQuery: string)
    requires pathAndQuery != "" && pathAndQuery[0] == '/'
    requires SplitLeadingSegment(pathAndQuery).Some?
    ensures var r := SplitLeadingSegment(pathAndQuery).value;
            TenantSegment(r.0) && r.1 != "" && r.1[0] == '/' && pathAndQuery == "/" + r.0 + r.1
  {
    QuerySplit(pathAndQuery);
    RootedPath(pathAndQuery);
    var path, query := PathOf(pathAndQuery), QueryText(QueryOf(pathAndQuery));
    CutIsPrefix(path);
    var r := CutFirst(path).value;
    SegmentOf(path, r.0, r.1);
    Glue("/" + r.0, r.1, query);
  }

  lemma Glue(a: string, b: string, c: string)
    ensures a + b + c == a + (b + c)
    ensures b != "" ==> (b + c)[0] == b[0]
  {
  }

  lemma SegmentOf(path: string, tenant: string, more: string)
    requires path == "/" + tenant + more && Free(path, '?')
    ensures Free(tenant, '?')
  {
    assert forall c :: c in tenant ==> c in path;
  }

  /** A rooted path has this leading segment and rest exactly when it is the segment, as a
      non-empty text without slash or question mark, put before a rooted rest. */
  lemma SplitLeadingIff(pathAndQuery: string, tenant: string, rest: string)
    requires pathAndQuery != "" && pathAndQuery[0] == '/'
    ensures SplitLeadingSegment(pathAndQuery) == Some((tenant, rest)) <==>
            TenantSegment(tenant) && rest != "" && rest[0] == '/' && pathAndQuery == "/" + tenant + rest
  {
    if TenantSegment(tenant) && rest != "" && rest[0] == '/' { PrefixedIsSplit(tenant, rest); }
    if SplitLeadingSegment(pathAndQuery).Some? { SplitIsPrefixed(pathAndQuery); }
  }

  lemma RootedPath(pathAndQuery: string)
    requires pathAndQuery != "" && pathAndQuery[0] == '/'
    ensures PathOf(pathAndQuery) != "" && PathOf(pathAndQuery)[0] == '/'
  {
    QuerySplit(pathAndQuery);
  }

  /** Path tenancy: for every tenant segment and every rooted rest, the tenant-prefixed
      request with path partitioning on comes to the same forwarded request or reply, in every
      branch, as the bare request with the tenant in the header and path partitioning off. The
      header only steers the decision: it is no edit, so the upstream does not see it. */
  lemma PathTenancy(f: Brain, header: string, req: Request, tenant: string, rest: string)
    requires f.pathHeader == Some(header) && TenantSegment(tenant) && rest != "" && rest[0] == '/'
    requires req.pathAndQuery == "/" + tenant + rest
    ensures Handled(f, req) == Handled(f.(pathHeader := None), Moved(req, header, tenant, rest))
  {
    SplitLeadingIff(req.pathAndQuery, tenant, rest);
    HandledIs(f, req);
    HandledIs(f.(pathHeader := None), Moved(req, header, tenant, rest));
  }

  /** Without a leading segment and a rest, path partitioning changes nothing. */
  lemma NoTenantSegment(f: Brain, req: Request)
    requires SplitLeadingSegment(req.pathAndQuery).None?
    ensures Handled(f, req) == Handled(f.(pathHeader := None), req)
  {
    HandledIs(f, req);
    HandledIs(f.(pathHeader := None), req);
  }

  lemma {:induction false} HeaderBehind(headers: Headers, header: string, value: string)
    ensures HeaderValue(headers + [(header, value)], header) ==
            if HeaderValue(headers, header).Some? then HeaderValue(headers, header) else Some(value)
  {
    var all := headers + [(header, value)];
    if headers == [] {
      assert all[0] == (header, value);
    } else {
      HeaderBehind(headers[1..], header, value);
      assert all[1..] == headers[1..] + [(header, value)];
    }
  }

  /** A header-keyed tenancy reads the path's tenant exactly when the client sends no header of
      that name itself, or sends the same value. */
  lemma PathTenantReadIff(req: Request, header: string, tenant: string, rest: string)
    ensures HeaderValue(Moved(req, header, tenant, rest).headers, header) == Some(tenant) <==>
            HeaderValue(req.headers, header) == None || HeaderValue(req.headers, header) == Some(tenant)
  {
    HeaderBehind(req.headers, header, tenant);
  }

  // ----- the header phase agrees -----

  /** What the header phase decides from the request without its body, the body phase bears
      out: a forwarded request goes to the cluster and host already named, and an early reply
      is the later one, unless the missing client certificate is what the body phase reports. */
  lemma HeaderPhaseAgrees(f: Brain, req: Request, seen: string)
    requires BodyIndependent(f.router)
    ensures var early := TakeAll(Untouched(req), RouteEffects(f, req.(body := seen)));
            var late := Handled(f, req);
            && (late.Forwarded? ==> early.Forwarded? && early.cluster == late.cluster && early.host == late.host)
            && (early.Replied? ==> late == early || late == Replied(MtlsRequired))
  {
    HandledIs(f, req);
    var o := Untouched(req);
    var bare := req.(body := seen);
    assert SplitLeadingSegment(bare.pathAndQuery) == SplitLeadingSegment(req.pathAndQuery);
    assert Seen(f, bare) == Seen(f, req).(body := seen);
    TakeOne(o, LocalReply(UnsupportedMethod.status, UnsupportedMethod.body));
    TakeOne(o, SetPath(Seen(f, req).pathAndQuery));
    var ctx := FromFilter(Seen(f, req));
    if ctx.Some? {
      PhasesAgree(f.router, ctx.value, seen);
      RoutedEarly(o, ResolveTarget(f.router, ctx.value.(body := seen)));
    }
  }

  function TargetOutcome(o: Outcome, r: Resolution): Outcome
    requires o.Forwarded?
  {
    match r
    case Ok(target) => o.(cluster := Some(target.0), host := target.1)
    case Err(reply) => Replied(reply)
  }

  lemma RoutedEarly(o: Outcome, r: Resolution)
    requires o.Forwarded? && o.host == None
    ensures TakeAll(o, TargetEffects(r)) == TargetOutcome(o, r)
  {
    match r {
      case Ok(target) =>
        TakeConcat(o, [SetCluster(target.0)], HostEffects(target.1));
        TakeOne(o, SetCluster(target.0));
        if target.1.Some? { TakeOne(Take(o, SetCluster(target.0)), SetHost(target.1.value)); }
      case Err(reply) => TakeOne(o, LocalReply(reply.status, reply.body));
    }
  }
}
