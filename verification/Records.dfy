/** What the records of asynchronous writes tell apart: the path and the body, not the method and
    not the tenant (crates/evoxy-filter/src/asyncwrite.rs). */
module Records {
  import opened Common
  import opened Json
  import opened Rewrite
  import opened Adapter
  import opened Transform
  import opened Route
  import opened Reference
  import opened Filter
  import opened AsyncWrite
  import opened Shared
  import opened Wire
  import Percent

  /** The record an accepted write leaves. */
  function RecordOf(f: Brain, req: Request): Record {
    Record(CaptureOf(f, req).path, CaptureOf(f, req).body)
  }

  /** A forwarded request is recorded as the path it is forwarded to, and its body unless it
      bypasses tenancy. */
  lemma RecordIs(f: Brain, req: Request)
    requires Handled(f, req).Forwarded?
    ensures RecordOf(f, req) == Record(Handled(f, req).path, if Passes(f, req) then "" else Handled(f, req).body)
  {
    CaptureHandled(f, req);
    CaptureBody(Capture(req.pathAndQuery, "", None), Untouched(req), HandleEffects(f, req));
    BodySetUnlessPassed(f, req);
  }

  /** Two forwarded requests leave one record exactly when they are forwarded to one path and with
      one body, where a bypassed request counts as having none. */
  lemma RecordsEqualIff(f: Brain, a: Request, b: Request)
    requires Handled(f, a).Forwarded? && Handled(f, b).Forwarded?
    ensures RecordOf(f, a) == RecordOf(f, b) <==>
            Handled(f, a).path == Handled(f, b).path
            && (if Passes(f, a) then "" else Handled(f, a).body) == (if Passes(f, b) then "" else Handled(f, b).body)
  {
    RecordIs(f, a);
    RecordIs(f, b);
  }

  /** Two bypassed requests leave one record exactly when their paths are the same, whatever their
      methods and bodies: a put and a delete of one document are one record. */
  lemma BypassedRecordsIff(f: Brain, a: Request, b: Request)
    requires Passes(f, a) && Passes(f, b)
    ensures Handled(f, a).Forwarded? && Handled(f, b).Forwarded?
    ensures RecordOf(f, a) == RecordOf(f, b) <==> Seen(f, a).pathAndQuery == Seen(f, b).pathAndQuery
  {
    HandledIs(f, a);
    HandledIs(f, b);
    RecordsEqualIff(f, a, b);
  }

  /** A bypassed put and a bypassed delete of one document. */
  lemma PutAndDeleteRecordAlike(f: Brain, put: Request, delete: Request)
    requires Passes(f, put) && put.verb == "PUT" && delete == put.(verb := "DELETE", body := "")
    requires Passes(f, delete)
    ensures RecordOf(f, put) == RecordOf(f, delete)
  {
    BypassedRecordsIff(f, put, delete);
  }

  // ----- tenants -----

  /** Two requests that differ in their headers, so possibly in their tenants. */
  predicate SameButHeaders(a: Request, b: Request) {
    b == a.(headers := b.headers)
  }

  lemma DedicatedForward(tenancy: Tenancy, ctx: Ctx, t: string, u: string)
    requires tenancy.isolation == DedicatedCluster
    ensures var p, q := tenancy.Decide(t, ctx.logicalIndex), tenancy.Decide(u, ctx.logicalIndex);
            && p.transform == q.transform == NoTransform && p.target.index == q.target.index == ctx.logicalIndex
  {
  }

  /** What `ForwardFor` makes of a request without transforms depends on the target alone. */
  lemma UntransformedWrite(p: Resolved, q: Resolved, ctx: Ctx)
    requires p.transform == q.transform == NoTransform && p.target.index == q.target.index
    requires ctx.endpoint == IngestDoc || ctx.endpoint == DeleteById
    ensures var (f, g) := (ForwardFor(p, ctx), ForwardFor(q, ctx));
            && (f.Upstream? <==> g.Upstream?)
            && (f.Upstream? ==> f.f.path == g.f.path && f.f.body == g.f.body)
  {
  }

  /** With a dedicated cluster for each tenant the record does not name the tenant: two tenants'
      accepted writes or deletes of one document, with one body, leave one record. */
  lemma DedicatedRecordsCoincide(tenancy: Tenancy, f: Brain, a: Request, b: Request)
    requires tenancy.isolation == DedicatedCluster && f.router == tenancy.AsRouter() && f.pathHeader == None
    requires SameButHeaders(a, b) && FromFilter(a).Some? && FromFilter(a).value.endpoint in {IngestDoc, DeleteById}
    requires Handled(f, a).Forwarded? && Handled(f, b).Forwarded?
    ensures RecordOf(f, a) == RecordOf(f, b)
  {
    var c, d := FromFilter(a).value, FromFilter(b).value;
    assert d == c.(headers := b.headers);
    HandledIs(f, a);
    HandledIs(f, b);
    RecordsEqualIff(f, a, b);
    if !Passes(f, a) { DedicatedPaths(tenancy, c, b.headers); }
  }

  lemma HeadersUnread(p: Resolved, ctx: Ctx, headers: Headers)
    ensures ForwardFor(p, ctx.(headers := headers)) == ForwardFor(p, ctx)
  {
  }

  lemma DedicatedPaths(tenancy: Tenancy, ctx: Ctx, headers: Headers)
    requires tenancy.isolation == DedicatedCluster && ctx.endpoint in {IngestDoc, DeleteById}
    requires Prepare(tenancy.AsRouter(), ctx).Upstream?
    requires Prepare(tenancy.AsRouter(), ctx.(headers := headers)).Upstream?
    ensures var (f, g) := (Prepare(tenancy.AsRouter(), ctx).f, Prepare(tenancy.AsRouter(), ctx.(headers := headers)).f);
            f.path == g.path && f.body == g.body
  {
    var t, u := tenancy.ResolvePartition(ctx).value, tenancy.ResolvePartition(ctx.(headers := headers)).value;
    var p, q := tenancy.Decide(t, ctx.logicalIndex), tenancy.Decide(u, ctx.logicalIndex);
    DedicatedForward(tenancy, ctx, t, u);
    HeadersUnread(q, ctx, headers);
    UntransformedWrite(p, q, ctx);
  }

  /** In the shared index the record of a single write names its tenant, in the stamped body: two
      tenants' accepted writes never leave one record. */
  lemma SharedRecordsDiffer(sc: Scope, f: Brain, a: Request, b: Request, c: Ctx, d: Ctx, t: string, u: string)
    requires sc.Sound() && f.router == sc.tenancy.AsRouter() && t != u
    requires FromFilter(Seen(f, a)) == Some(c) && c.endpoint == IngestDoc && sc.tenancy.ResolvePartition(c) == Ok(t)
    requires FromFilter(Seen(f, b)) == Some(d) && d.endpoint == IngestDoc && sc.tenancy.ResolvePartition(d) == Ok(u)
    requires !Passes(f, a) && !Passes(f, b) && Handled(f, a).Forwarded? && Handled(f, b).Forwarded?
    ensures RecordOf(f, a) != RecordOf(f, b)
  {
    HandledIs(f, a);
    HandledIs(f, b);
    RecordsEqualIff(f, a, b);
    SharedBody(sc, c, t);
    SharedBody(sc, d, u);
    StampsApart(sc, t, Storing(sc, c.body).value.1, u, Storing(sc, d.body).value.1);
  }

  lemma SharedBody(sc: Scope, ctx: Ctx, t: string)
    requires sc.Sound() && ctx.endpoint == IngestDoc && sc.tenancy.ResolvePartition(ctx) == Ok(t)
    requires Prepare(sc.tenancy.AsRouter(), ctx).Upstream?
    ensures Storing(sc, ctx.body).Some? && sc.Storable(Storing(sc, ctx.body).value.1)
    ensures Prepare(sc.tenancy.AsRouter(), ctx).f.body == Print(sc.Stamp(t, Storing(sc, ctx.body).value.1))
  {
    SharedApply(sc, t, ctx.logicalIndex, ctx.body);
    if Storing(sc, ctx.body).Some? { StoringStorable(sc, ctx.body); }
  }

  lemma StampsApart(sc: Scope, t: string, x: Json, u: string, y: Json)
    requires sc.Storable(x) && sc.Storable(y) && t != u
    ensures Print(sc.Stamp(t, x)) != Print(sc.Stamp(u, y))
  {
    StampValid(sc, t, x);
    StampValid(sc, u, y);
    ParsePrint(sc.Stamp(t, x));
    ParsePrint(sc.Stamp(u, y));
    var fs, gs := sc.Stamp(t, x).fields, sc.Stamp(u, y).fields;
    assert fs[|fs| - 1] == (sc.tenancy.injectField, Str(t)) && gs[|gs| - 1] == (sc.tenancy.injectField, Str(u));
  }

  // ----- deletes -----

  lemma SegmentPathIff(index: string, a: string, b: string)
    ensures SegmentPath(index, a) == SegmentPath(index, b) <==> a == b
  {
    var lead := "/" + index + "/" + "_doc" + "/";
    assert SegmentPath(index, a) == lead + a && SegmentPath(index, b) == lead + b;
    assert SegmentPath(index, a)[|lead|..] == a && SegmentPath(index, b)[|lead|..] == b;
  }

  lemma RoutingTextIff(a: string, b: string)
    ensures "routing=" + Percent.Encode(a) == "routing=" + Percent.Encode(b) <==> a == b
  {
    var lead := "routing=";
    assert (lead + Percent.Encode(a))[|lead|..] == Percent.Encode(a);
    assert (lead + Percent.Encode(b))[|lead|..] == Percent.Encode(b);
    if Percent.Encode(a) == Percent.Encode(b) { Percent.EncodeInjective(a, b); }
  }

  /** A by-id path tells the id and the routing. */
  lemma DocPathIff(index: string, a: string, ar: Option<string>, b: string, br: Option<string>)
    requires PlainIndex(index)
    ensures DocPath(index, a, ar) == DocPath(index, b, br) <==> a == b && ar == br
  {
    SplitDocPath(index, a, ar);
    SplitDocPath(index, b, br);
    SegmentPathIff(index, Percent.Encode(a), Percent.Encode(b));
    if Percent.Encode(a) == Percent.Encode(b) { Percent.EncodeInjective(a, b); }
    if ar.Some? && br.Some? { RoutingTextIff(ar.value, br.value); }
  }

  lemma SharedDelete(sc: Scope, ctx: Ctx, t: string, x: string)
    requires sc.Sound() && ctx.endpoint == DeleteById && ctx.docId == Some(x)
    requires sc.tenancy.ResolvePartition(ctx) == Ok(t)
    requires Prepare(sc.tenancy.AsRouter(), ctx).Upstream?
    ensures var p := Prepare(sc.tenancy.AsRouter(), ctx).f;
            p.body == "" && p.path == DocPath(sc.tenancy.sharedIndex, sc.shape.Physical(t, x), RoutingIn(sc, t))
  {
    SharedPhysicalId(sc, t, ctx.logicalIndex, x);
  }

  /** In the shared index a delete's record names its tenant only in the path: two accepted deletes
      leave one record exactly when they go to one stored document and, with routing, are of one
      tenant. */
  lemma SharedDeleteRecordsIff(sc: Scope, f: Brain, a: Request, b: Request, c: Ctx, d: Ctx,
                               t: string, x: string, u: string, y: string)
    requires sc.Sound() && f.router == sc.tenancy.AsRouter()
    requires FromFilter(Seen(f, a)) == Some(c) && c.endpoint == DeleteById && c.docId == Some(x)
    requires FromFilter(Seen(f, b)) == Some(d) && d.endpoint == DeleteById && d.docId == Some(y)
    requires sc.tenancy.ResolvePartition(c) == Ok(t) && sc.tenancy.ResolvePartition(d) == Ok(u)
    requires !Passes(f, a) && !Passes(f, b) && Handled(f, a).Forwarded? && Handled(f, b).Forwarded?
    ensures RecordOf(f, a) == RecordOf(f, b) <==>
            sc.shape.Physical(t, x) == sc.shape.Physical(u, y) && (sc.tenancy.routing ==> t == u)
  {
    HandledIs(f, a);
    HandledIs(f, b);
    RecordsEqualIff(f, a, b);
    SharedDelete(sc, c, t, x);
    SharedDelete(sc, d, u, y);
    DocPathIff(sc.tenancy.sharedIndex, sc.shape.Physical(t, x), RoutingIn(sc, t),
               sc.shape.Physical(u, y), RoutingIn(sc, u));
  }
}
