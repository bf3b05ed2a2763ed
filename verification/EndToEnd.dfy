/** Raw requests through the whole brain: adaptation, policy, bypass, preparation, execution by
    the upstream and response shaping, over runs of any tenants. */
module EndToEnd {
  import opened Common
  import opened Json
  import opened Adapter
  import opened Route
  import opened Filter
  import opened Shared
  import opened Wire
  import opened Replies
  import opened Runs
  import opened Prefixed
  import opened Raw
  import opened Foreign
  import opened Sides
  import Engine

  // ----- one raw request -----

  /** The upstream's answer as the client receives it: the response phase looks at the request
      as it came. */
  function BrainBody(f: Brain, req: Request, upstream: string): string {
    match ShapeResponse(f, req, upstream)
    case Some(shaped) => shaped
    case None => upstream
  }

  /** The endpoint that was served; a request without a context has none. */
  function EndpointOf(f: Brain, req: Request): Endpoint {
    var ctx := FromFilter(Filter.Seen(f, req));
    if ctx.Some? then ctx.value.endpoint else Unknown
  }

  /** A request without a cluster goes where Envoy sends everything else. */
  function Or(cluster: Option<string>, home: string): string {
    if cluster.Some? then cluster.value else home
  }

  /** What the upstream is asked by a forwarded request. */
  function AskedOf(home: string, o: Outcome): Option<Engine.Op<Key>> {
    match o
    case Replied(_) => None
    case Forwarded(verb, path, body, cluster, host, _) =>
      ReadOp(Prepared(Or(cluster, home), verb, path, body, [], host))
  }

  function ShownOf(f: Brain, req: Request, verb: string, a: Engine.Answer<Key>): Seen {
    SeenOf(EndpointOf(f, req), BrainBody(f, req, AnswerText(verb == "HEAD", a, PhysicalNaming())))
  }

  /** One raw request: handled, executed by the upstream on what was forwarded, and shaped.
      `home` is the cluster of Envoy's default route. */
  function BrainStep(f: Brain, home: string, docs: Docs, req: Request): (Docs, Seen) {
    var o := Handled(f, req);
    if o.Replied? then (docs, Refused(o.reply))
    else
      match AskedOf(home, o)
      case None => (docs, Accepted)
      case Some(op) =>
        var r := Engine.Exec(docs, op);
        (r.0, ShownOf(f, req, o.verb, r.1))
  }

  function BrainRun(f: Brain, home: string, docs: Docs, run: seq<Request>): (r: (Docs, seq<Seen>))
    ensures |r.1| == |run|
    decreases run
  {
    if run == [] then (docs, []) else
      var first := BrainStep(f, home, docs, run[0]);
      var rest := BrainRun(f, home, first.0, run[1..]);
      (rest.0, [first.1] + rest.1)
  }

  // ----- the separate stores -----

  /** Every tenant's private store, and the indices outside tenancy. */
  datatype World = World(privs: Privates, others: Docs)

  /** The one store is the disjoint union of the private stores, in the shared index, and of the
      other indices. */
  ghost predicate Stands(sc: Scope, docs: Docs, w: World) {
    Represents(sc, Side(SharedPlace(sc), true, docs), w.privs) && Side(SharedPlace(sc), false, docs) == w.others
  }

  /** The same request, as the brain sees it and behind the same policy, on its tenant's private
      store; a bypassed one on the other indices alone. */
  function OwnStep(sc: Scope, f: Brain, home: string, w: World, req: Request): (World, Seen) {
    var seen := Filter.Seen(f, req);
    match FromFilter(seen)
    case None => (w, Refused(UnsupportedMethod))
    case Some(ctx) =>
      if RefusedForMtls(f, ctx, seen) then (w, Refused(MtlsRequired))
      else if ctx.logicalIndex in f.passthrough then
        match AskedOf(home, Handled(f, req))
        case None => (w, Accepted)
        case Some(op) =>
          var r := Engine.Exec(w.others, op);
          (w.(others := r.0), ShownOf(f, req, req.verb, r.1))
      else
        var own := PrivateStep(sc, w.privs, ctx);
        (w.(privs := own.0), own.1)
  }

  function OwnRun(sc: Scope, f: Brain, home: string, w: World, run: seq<Request>): (r: (World, seq<Seen>))
    ensures |r.1| == |run|
    decreases run
  {
    if run == [] then (w, []) else
      var first := OwnStep(sc, f, home, w, run[0]);
      var rest := OwnRun(sc, f, home, first.0, run[1..]);
      (rest.0, [first.1] + rest.1)
  }

  /** A bypassed request this model can read keeps away: as the upstream reads it, it touches no
      document of the shared index. A write on one document is read on `_doc` paths only, since
      the upstream takes `_create` and `_update` for something else. */
  predicate KeepsAway(sc: Scope, f: Brain, home: string, req: Request) {
    var op := AskedOf(home, Handled(f, req));
    && op.Some? && KeysOn(SharedPlace(sc), false, op.value)
    && (EndpointOf(f, req) == IngestDoc ==>
          |Segments(Filter.Seen(f, req).Path())| >= 2 && Segments(Filter.Seen(f, req).Path())[1] == "_doc")
  }

  /** A request of one of the tenants that this model covers, one without a context, or a
      bypassed one that keeps away from the shared index. */
  predicate CoveredRequest(sc: Scope, f: Brain, home: string, tenants: set<string>, req: Request) {
    if Passes(f, req) then KeepsAway(sc, f, home, req)
    else
      var ctx := FromFilter(Filter.Seen(f, req));
      ctx.Some? ==> From(sc, tenants, ctx.value)
  }

  // ----- the brain and the engine's rewriting -----

  lemma ClassifiedAlike(p: Prepared, q: Prepared, m: Method, c: Classified)
    requires p.cluster == q.cluster && p.body == q.body
    ensures ReadClassified(q, m, c) == ReadClassified(p, m, c)
  {
    assert DocKey(q, c) == DocKey(p, c);
  }

  /** The upstream sees the line, the body and the cluster, and nothing of the edits. */
  lemma ReadIgnoresEdits(p: Prepared, q: Prepared)
    requires p.cluster == q.cluster && p.verb == q.verb && p.path == q.path && p.body == q.body
    ensures ReadOp(q) == ReadOp(p)
  {
    var m := ParseMethod(p.verb);
    if m.Some? { ClassifiedAlike(p, q, m.value, Classify(m.value, PathOf(p.path))); }
  }

  lemma AskedOfForward(home: string, forward: Forward)
    ensures AskedOf(home, ForwardOutcome(forward)) ==
            if forward.Upstream? then ReadOp(forward.f) else None
  {
    if forward.Upstream? {
      var p := forward.f;
      ReadIgnoresEdits(p, Prepared(p.cluster, p.verb, p.path, p.body, [], p.upstreamHost));
    }
  }

  /** The brain took the tenant from the path. */
  predicate Rewritten(f: Brain, req: Request) {
    RewriteForPath(f, req).Some?
  }

  /** The engine's step with the answer shaped for the request as it came. */
  function PassedStep(f: Brain, docs: Docs, req: Request, ctx: Ctx): (Docs, Seen) {
    match Prepare(f.router, ctx)
    case Immediate(reply) => (docs, Refused(reply))
    case Upstream(p) =>
      match ReadOp(p)
      case None => (docs, Accepted)
      case Some(op) =>
        var r := Engine.Exec(docs, op);
        (r.0, SeenOf(ctx.endpoint, BrainBody(f, req, AnswerText(p.verb == "HEAD", r.1, PhysicalNaming()))))
  }

  lemma PassedIs(f: Brain, home: string, docs: Docs, req: Request, ctx: Ctx)
    requires FromFilter(Filter.Seen(f, req)) == Some(ctx)
    requires Handled(f, req) == ForwardOutcome(Prepare(f.router, ctx))
    ensures BrainStep(f, home, docs, req) == PassedStep(f, docs, req, ctx)
  {
    AskedOfForward(home, Prepare(f.router, ctx));
  }

  /** Not rewritten, the request is shaped as it was served. */
  lemma PassedIsShared(f: Brain, docs: Docs, req: Request, ctx: Ctx)
    requires FromFilter(Filter.Seen(f, req)) == Some(ctx)
    ensures PassedStep(f, docs, req, ctx).0 == SharedStep(f.router, docs, ctx).0
    ensures !Rewritten(f, req) ==> PassedStep(f, docs, req, ctx) == SharedStep(f.router, docs, ctx)
  {
  }

  /** What the brain does: its own refusals, the bypass, or the engine's step. */
  predicate BrainDoes(f: Brain, home: string, docs: Docs, req: Request, ctx: Ctx) {
    if RefusedForMtls(f, ctx, Filter.Seen(f, req)) then
      BrainStep(f, home, docs, req) == (docs, Refused(MtlsRequired))
    else if ctx.logicalIndex in f.passthrough then
      Handled(f, req) == Untouched(req.(pathAndQuery := Filter.Seen(f, req).pathAndQuery))
    else
      && BrainStep(f, home, docs, req) == PassedStep(f, docs, req, ctx)
      && BrainStep(f, home, docs, req).0 == SharedStep(f.router, docs, ctx).0
      && (!Rewritten(f, req) ==> BrainStep(f, home, docs, req) == SharedStep(f.router, docs, ctx))
  }

  /** The brain adds nothing to the engine's rewriting but its own refusals and the bypass. */
  lemma BrainIsShared(f: Brain, home: string, docs: Docs, req: Request)
    ensures var ctx := FromFilter(Filter.Seen(f, req));
            if ctx.None? then BrainStep(f, home, docs, req) == (docs, Refused(UnsupportedMethod))
            else BrainDoes(f, home, docs, req, ctx.value)
  {
    HandledIs(f, req);
    var seen := Filter.Seen(f, req);
    var ctx := FromFilter(seen);
    if ctx.Some? && !RefusedForMtls(f, ctx.value, seen) && ctx.value.logicalIndex !in f.passthrough {
      PassedIs(f, home, docs, req, ctx.value);
      PassedIsShared(f, docs, req, ctx.value);
    }
  }

  // ----- what a served request shows -----

  lemma ForwardedOp(sc: Scope, t: string, ctx: Ctx)
    requires sc.Sound() && Addressed(sc, t, ctx) && Covered(ctx) && sc.tenancy.ResolvePartition(ctx) == Ok(t)
    requires LogicalOp(sc, t, ctx).Ok?
    ensures var forward := Prepare(sc.tenancy.AsRouter(), ctx);
            && forward.Upstream? && ReadOp(forward.f) == Some(PhysicalOp(sc, t, LogicalOp(sc, t, ctx).value))
            && (forward.f.verb == "HEAD" <==> ctx.endpoint == GetById && ctx.verb == HEAD)
            && StorableOp(sc, LogicalOp(sc, t, ctx).value)
  {
    ForwardReads(sc, t, ctx);
    ForwardedHead(sc, t, ctx);
  }

  /** A tenant's request on the whole store is its request on the shared side. */
  lemma SharedSide(sc: Scope, docs: Docs, ctx: Ctx, t: string)
    requires sc.Sound() && Addressed(sc, t, ctx) && Covered(ctx) && sc.tenancy.ResolvePartition(ctx) == Ok(t)
    ensures var all := SharedStep(sc.tenancy.AsRouter(), docs, ctx);
            var part := SharedStep(sc.tenancy.AsRouter(), Side(SharedPlace(sc), true, docs), ctx);
            && Side(SharedPlace(sc), true, all.0) == part.0 && all.1 == part.1
            && Side(SharedPlace(sc), false, all.0) == Side(SharedPlace(sc), false, docs)
  {
    ForwardReads(sc, t, ctx);
    if LogicalOp(sc, t, ctx).Ok? {
      TenantKeys(sc, t, LogicalOp(sc, t, ctx).value);
      ExecLocal(SharedPlace(sc), true, docs, PhysicalOp(sc, t, LogicalOp(sc, t, ctx).value));
    }
  }

  lemma UnresolvedSide(sc: Scope, docs: Docs, ctx: Ctx)
    requires sc.tenancy.ResolvePartition(ctx).Err?
    ensures SharedStep(sc.tenancy.AsRouter(), docs, ctx).0 == docs
    ensures SharedStep(sc.tenancy.AsRouter(), docs, ctx).1
            == SharedStep(sc.tenancy.AsRouter(), Side(SharedPlace(sc), true, docs), ctx).1
  {
  }

  lemma BothSides(sc: Scope, docs: Docs, privs: Privates, ctx: Ctx)
    requires sc.Sound() && Separated(sc, privs.Keys) && Represents(sc, Side(SharedPlace(sc), true, docs), privs)
    requires From(sc, privs.Keys, ctx)
    ensures var all, own := SharedStep(sc.tenancy.AsRouter(), docs, ctx), PrivateStep(sc, privs, ctx);
            && Represents(sc, Side(SharedPlace(sc), true, all.0), own.0)
            && Side(SharedPlace(sc), false, all.0) == Side(SharedPlace(sc), false, docs)
            && all.1 == own.1 && own.0.Keys == privs.Keys
  {
    StepRefines(sc, Side(SharedPlace(sc), true, docs), privs, ctx);
    match sc.tenancy.ResolvePartition(ctx)
    case Ok(t) => SharedSide(sc, docs, ctx, t);
    case Err(_) =>
      UnresolvedSide(sc, docs, ctx);
      UnresolvedSide(sc, Side(SharedPlace(sc), true, docs), ctx);
  }

  // ----- what a rewritten request shows -----

  /** The tenant's own store refuses the request, or answers it without a body, or the answer
      shaped for the request as it came, `r`, has the tenant's own text. */
  predicate RewrittenAlike(sc: Scope, privs: Privates, r: Ctx, ctx: Ctx) {
    match sc.tenancy.ResolvePartition(ctx)
    case Err(_) => true
    case Ok(t) =>
      match LogicalOp(sc, t, ctx)
      case Err(_) => true
      case Ok(op) =>
        !ShapedEndpoint(ctx.endpoint) || (ctx.endpoint == GetById && ctx.verb == HEAD)
        || TextAlike(sc, t, r, ctx.logicalIndex, PrivateOf(privs, t), op)
  }

  /** The client is shown what the separate stores would show it. Checked before the call. */
  predicate ShownAlike(sc: Scope, f: Brain, privs: Privates, req: Request) {
    var seen := Filter.Seen(f, req);
    var ctx := FromFilter(seen);
    !Rewritten(f, req) || ctx.None? || RefusedForMtls(f, ctx.value, seen) || Passes(f, req)
    || RewrittenAlike(sc, privs, FromFilter(req).value, ctx.value)
  }

  lemma RouterBody(f: Brain, req: Request, r: Ctx, text: string)
    requires FromFilter(req) == Some(r)
    ensures BrainBody(f, req, text) == ClientBody(f.router, r, text)
  {
  }

  lemma EmptyUnshaped(router: Router, r: Ctx)
    ensures ClientBody(router, r, "") == ""
  {
    ShapedReadIff(router, r, "");
    assert Parse("").None?;
  }

  /** The tenant's answer on the shared side. */
  lemma SideAnswer(sc: Scope, docs: Docs, privs: Privates, t: string, op: Engine.Op<string>)
    requires Separated(sc, privs.Keys) && Represents(sc, Side(SharedPlace(sc), true, docs), privs)
    requires t in privs && StorableOp(sc, op)
    ensures Engine.Exec(docs, PhysicalOp(sc, t, op)).1 == PhysicalAnswer(sc, t, Engine.Exec(privs[t], op).1)
  {
    TenantKeys(sc, t, op);
    ExecLocal(SharedPlace(sc), true, docs, PhysicalOp(sc, t, op));
    SharedAnswer(sc, Side(SharedPlace(sc), true, docs), privs, t, op);
  }

  /** What a served request shows, as text of the tenant's own answer. */
  lemma PassedShows(sc: Scope, f: Brain, docs: Docs, privs: Privates, req: Request, r: Ctx, ctx: Ctx, t: string)
    requires sc.Sound() && f.router == sc.tenancy.AsRouter() && Separated(sc, privs.Keys)
    requires Represents(sc, Side(SharedPlace(sc), true, docs), privs) && t in privs
    requires FromFilter(req) == Some(r) && sc.tenancy.ResolvePartition(ctx) == Ok(t)
    requires Addressed(sc, t, ctx) && Covered(ctx) && LogicalOp(sc, t, ctx).Ok?
    ensures PassedStep(f, docs, req, ctx).1 ==
            SeenOf(ctx.endpoint, ClientBody(f.router, r,
              AnswerText(ctx.endpoint == GetById && ctx.verb == HEAD,
                         PhysicalAnswer(sc, t, Engine.Exec(privs[t], LogicalOp(sc, t, ctx).value).1), PhysicalNaming())))
  {
    var op := LogicalOp(sc, t, ctx).value;
    ForwardedOp(sc, t, ctx);
    SideAnswer(sc, docs, privs, t, op);
    RouterBody(f, req, r, AnswerText(ctx.endpoint == GetById && ctx.verb == HEAD,
                                     Engine.Exec(docs, PhysicalOp(sc, t, op)).1, PhysicalNaming()));
  }

  /** A body is shown exactly alike when `TextAlike` says so. */
  lemma BodyShownIff(sc: Scope, docs: Docs, privs: Privates, r: Ctx, ctx: Ctx, t: string, op: Engine.Op<string>)
    requires sc.Sound() && Represents(sc, docs, privs) && t in privs
    requires Covered(ctx) && LogicalOp(sc, t, ctx) == Ok(op) && ShapedEndpoint(ctx.endpoint)
    ensures ClientBody(sc.tenancy.AsRouter(), r, RawText(sc, t, Engine.Exec(privs[t], op).1))
            == TextOf(Engine.Exec(privs[t], op).1, LogicalNaming(ctx.logicalIndex))
            <==> TextAlike(sc, t, r, ctx.logicalIndex, privs[t], op)
  {
    OwnDocs(sc, docs, privs, t, op);
    LogicalAnswers(sc, t, ctx, privs[t]);
    AnswerShows(sc, t, r, Engine.Exec(privs[t], op).1);
    TextAlikeIff(sc, t, r, ctx.logicalIndex, privs[t], op);
  }

  lemma PassedShownIff(sc: Scope, f: Brain, docs: Docs, privs: Privates, req: Request, r: Ctx, ctx: Ctx, t: string)
    requires sc.Sound() && f.router == sc.tenancy.AsRouter() && Separated(sc, privs.Keys)
    requires Represents(sc, Side(SharedPlace(sc), true, docs), privs) && t in privs
    requires FromFilter(req) == Some(r) && sc.tenancy.ResolvePartition(ctx) == Ok(t)
    requires Addressed(sc, t, ctx) && Covered(ctx) && LogicalOp(sc, t, ctx).Ok?
    ensures PassedStep(f, docs, req, ctx).1 == PrivateStep(sc, privs, ctx).1 <==> RewrittenAlike(sc, privs, r, ctx)
  {
    PassedShows(sc, f, docs, privs, req, r, ctx, t);
    EmptyUnshaped(f.router, r);
    if ShapedEndpoint(ctx.endpoint) {
      BodyShownIff(sc, Side(SharedPlace(sc), true, docs), privs, r, ctx, t, LogicalOp(sc, t, ctx).value);
    }
  }

  /** A request refused before it reaches the store is refused alike. */
  lemma PassedRefused(sc: Scope, f: Brain, docs: Docs, privs: Privates, req: Request, ctx: Ctx)
    requires sc.Sound() && f.router == sc.tenancy.AsRouter() && From(sc, privs.Keys, ctx)
    requires match sc.tenancy.ResolvePartition(ctx)
             case Ok(t) => LogicalOp(sc, t, ctx).Err?
             case Err(_) => true
    ensures PassedStep(f, docs, req, ctx).1 == PrivateStep(sc, privs, ctx).1
  {
    if sc.tenancy.ResolvePartition(ctx).Ok? { ForwardReads(sc, sc.tenancy.ResolvePartition(ctx).value, ctx); }
  }

  lemma RewrittenShownIff(sc: Scope, f: Brain, docs: Docs, privs: Privates, req: Request, r: Ctx, ctx: Ctx)
    requires sc.Sound() && f.router == sc.tenancy.AsRouter() && Separated(sc, privs.Keys)
    requires Represents(sc, Side(SharedPlace(sc), true, docs), privs) && From(sc, privs.Keys, ctx)
    requires FromFilter(req) == Some(r)
    ensures PassedStep(f, docs, req, ctx).1 == PrivateStep(sc, privs, ctx).1 <==> RewrittenAlike(sc, privs, r, ctx)
  {
    match sc.tenancy.ResolvePartition(ctx)
    case Err(_) => PassedRefused(sc, f, docs, privs, req, ctx);
    case Ok(t) =>
      if LogicalOp(sc, t, ctx).Ok? {
        PassedShownIff(sc, f, docs, privs, req, r, ctx, t);
      } else {
        PassedRefused(sc, f, docs, privs, req, ctx);
      }
  }

  // ----- one step -----

  /** What one request does to the stores, and when it is shown alike. */
  ghost predicate StepAgrees(sc: Scope, f: Brain, w: World, req: Request, shared: (Docs, Seen), own: (World, Seen)) {
    && Stands(sc, shared.0, own.0) && own.0.privs.Keys == w.privs.Keys
    && (shared.1 == own.1 <==> ShownAlike(sc, f, w.privs, req))
  }

  lemma AlikeWhenServed(sc: Scope, f: Brain, privs: Privates, req: Request, ctx: Ctx)
    requires FromFilter(Filter.Seen(f, req)) == Some(ctx) && Rewritten(f, req)
    requires !RefusedForMtls(f, ctx, Filter.Seen(f, req)) && ctx.logicalIndex !in f.passthrough
    ensures ShownAlike(sc, f, privs, req) <==> RewrittenAlike(sc, privs, FromFilter(req).value, ctx)
  {
  }

  /** A served request on the separate stores. */
  lemma ServedAlone(sc: Scope, f: Brain, home: string, w: World, req: Request, ctx: Ctx)
    requires FromFilter(Filter.Seen(f, req)) == Some(ctx)
    requires !RefusedForMtls(f, ctx, Filter.Seen(f, req)) && ctx.logicalIndex !in f.passthrough
    ensures var own := PrivateStep(sc, w.privs, ctx);
            OwnStep(sc, f, home, w, req) == (World(own.0, w.others), own.1)
    ensures Rewritten(f, req) ==>
              (ShownAlike(sc, f, w.privs, req) <==> RewrittenAlike(sc, w.privs, FromFilter(req).value, ctx))
  {
    if Rewritten(f, req) { AlikeWhenServed(sc, f, w.privs, req, ctx); }
  }

  lemma ServedStep(sc: Scope, f: Brain, home: string, docs: Docs, w: World, req: Request, ctx: Ctx)
    requires sc.Sound() && f.router == sc.tenancy.AsRouter() && Separated(sc, w.privs.Keys) && Stands(sc, docs, w)
    requires FromFilter(Filter.Seen(f, req)) == Some(ctx) && From(sc, w.privs.Keys, ctx)
    requires !RefusedForMtls(f, ctx, Filter.Seen(f, req)) && ctx.logicalIndex !in f.passthrough
    ensures StepAgrees(sc, f, w, req, BrainStep(f, home, docs, req), OwnStep(sc, f, home, w, req))
  {
    BrainIsShared(f, home, docs, req);
    ServedAlone(sc, f, home, w, req, ctx);
    BothSides(sc, docs, w.privs, ctx);
    if Rewritten(f, req) {
      RewrittenShownIff(sc, f, docs, w.privs, req, FromFilter(req).value, ctx);
    } else {
      assert ShownAlike(sc, f, w.privs, req);
    }
  }

  lemma BypassedStep(sc: Scope, f: Brain, home: string, docs: Docs, w: World, req: Request)
    requires Stands(sc, docs, w) && Passes(f, req) && KeepsAway(sc, f, home, req)
    ensures StepAgrees(sc, f, w, req, BrainStep(f, home, docs, req), OwnStep(sc, f, home, w, req))
  {
    HandledIs(f, req);
    ExecLocal(SharedPlace(sc), false, docs, AskedOf(home, Handled(f, req)).value);
  }

  lemma BrainStepRefines(sc: Scope, f: Brain, home: string, docs: Docs, w: World, req: Request)
    requires sc.Sound() && f.router == sc.tenancy.AsRouter() && Separated(sc, w.privs.Keys) && Stands(sc, docs, w)
    requires CoveredRequest(sc, f, home, w.privs.Keys, req)
    ensures StepAgrees(sc, f, w, req, BrainStep(f, home, docs, req), OwnStep(sc, f, home, w, req))
  {
    BrainIsShared(f, home, docs, req);
    var seen := Filter.Seen(f, req);
    var ctx := FromFilter(seen);
    if Passes(f, req) {
      BypassedStep(sc, f, home, docs, w, req);
    } else if ctx.Some? && !RefusedForMtls(f, ctx.value, seen) {
      ServedStep(sc, f, home, docs, w, req, ctx.value);
    }
  }

  // ----- whole runs -----

  ghost predicate CoveredRun(sc: Scope, f: Brain, home: string, tenants: set<string>, run: seq<Request>) {
    forall i :: 0 <= i < |run| ==> CoveredRequest(sc, f, home, tenants, run[i])
  }

  lemma CoveredTail(sc: Scope, f: Brain, home: string, tenants: set<string>, run: seq<Request>)
    requires run != [] && CoveredRun(sc, f, home, tenants, run)
    ensures CoveredRequest(sc, f, home, tenants, run[0]) && CoveredRun(sc, f, home, tenants, run[1..])
  {
    forall i | 0 <= i < |run[1..]| ensures CoveredRequest(sc, f, home, tenants, run[1..][i]) {
      assert run[1..][i] == run[i + 1];
    }
  }

  /** Request by request, shown alike exactly when `ShownAlike` says so of the stores as they then
      are. */
  ghost predicate ShownExactly(sc: Scope, f: Brain, home: string, w: World, run: seq<Request>,
                               shared: seq<Seen>, own: seq<Seen>)
    requires |shared| == |own| == |run|
    decreases run
  {
    run == [] || ((shared[0] == own[0] <==> ShownAlike(sc, f, w.privs, run[0]))
                  && ShownExactly(sc, f, home, OwnStep(sc, f, home, w, run[0]).0, run[1..], shared[1..], own[1..]))
  }

  ghost predicate RunAgrees(sc: Scope, f: Brain, home: string, w: World, run: seq<Request>,
                            shared: (Docs, seq<Seen>), own: (World, seq<Seen>))
    requires |shared.1| == |own.1| == |run|
  {
    && Stands(sc, shared.0, own.0) && own.0.privs.Keys == w.privs.Keys
    && ShownExactly(sc, f, home, w, run, shared.1, own.1)
  }

  lemma RunCons(sc: Scope, f: Brain, home: string, docs: Docs, w: World, req: Request, run: seq<Request>)
    requires StepAgrees(sc, f, w, req, BrainStep(f, home, docs, req), OwnStep(sc, f, home, w, req))
    requires var next, own := BrainStep(f, home, docs, req).0, OwnStep(sc, f, home, w, req).0;
             RunAgrees(sc, f, home, own, run, BrainRun(f, home, next, run), OwnRun(sc, f, home, own, run))
    ensures RunAgrees(sc, f, home, w, [req] + run, BrainRun(f, home, docs, [req] + run),
                      OwnRun(sc, f, home, w, [req] + run))
  {
    var all := [req] + run;
    assert all[0] == req && all[1..] == run;
    assert BrainRun(f, home, docs, all).1[1..] == BrainRun(f, home, BrainStep(f, home, docs, req).0, run).1;
    assert OwnRun(sc, f, home, w, all).1[1..] == OwnRun(sc, f, home, OwnStep(sc, f, home, w, req).0, run).1;
  }

  /** For every run of raw requests, with tenants in headers or in paths, bypassed or not: the
      one store stays the disjoint union of the private stores and the other indices, and every
      client is shown, request by request, what those separate stores would show it, exactly when
      the request was not rewritten or the answer shaped for its own path has the same text. */
  lemma {:induction false} BrainRunRefines(sc: Scope, f: Brain, home: string, docs: Docs, w: World, run: seq<Request>)
    requires sc.Sound() && f.router == sc.tenancy.AsRouter() && Separated(sc, w.privs.Keys) && Stands(sc, docs, w)
    requires CoveredRun(sc, f, home, w.privs.Keys, run)
    ensures RunAgrees(sc, f, home, w, run, BrainRun(f, home, docs, run), OwnRun(sc, f, home, w, run))
    decreases run
  {
    if run != [] {
      CoveredTail(sc, f, home, w.privs.Keys, run);
      BrainStepRefines(sc, f, home, docs, w, run[0]);
      BrainRunRefines(sc, f, home, BrainStep(f, home, docs, run[0]).0, OwnStep(sc, f, home, w, run[0]).0, run[1..]);
      RunCons(sc, f, home, docs, w, run[0], run[1..]);
      assert [run[0]] + run[1..] == run;
    }
  }
}
