/** What tenant-prefixed requests are shown, read off the exact condition of the run theorem:
    documents, cluster-level bulk and mget requests, and the requests that are not shaped. */
module PathTenants {
  import opened Common
  import opened Json
  import opened Adapter
  import opened Route
  import opened Reference
  import opened Filter
  import opened Shared
  import opened Wire
  import opened Replies
  import opened Runs
  import opened Prefixed
  import opened Raw
  import opened Foreign
  import opened Sides
  import opened EndToEnd
  import Engine

  // ----- responses that stay unshaped -----

  /** The response phase leaves every answer to this request as it is. */
  ghost predicate Unshaped(f: Brain, req: Request) {
    forall upstream :: ShapeResponse(f, req, upstream) == None
  }

  /** A tenant-prefixed request's responses stay unshaped exactly when its path, tenant in the
      index's place, is not one of a shaped request, or no partition is found for it. */
  lemma UnshapedIff(f: Brain, req: Request, tenant: string, rest: string)
    requires TenantFirst(req, tenant, rest)
    ensures Unshaped(f, req) <==>
            !(ReadsAsShaped(ParseMethod(req.verb).value, tenant, Segments(PathOf(rest)))
              && f.router.resolve(FromFilter(req).value).Ok?)
  {
    ParsePrint(Obj([]));
    forall upstream
      ensures ShapeResponse(f, req, upstream).Some? <==>
              ReadsAsShaped(ParseMethod(req.verb).value, tenant, Segments(PathOf(rest)))
              && f.router.resolve(FromFilter(req).value).Ok? && Parse(upstream).Some?
    {
      PrefixedShapedIff(f, req, tenant, rest, upstream);
    }
    assert Parse(Print(Obj([]))).Some?;
    assert Unshaped(f, req) ==> ShapeResponse(f, req, Print(Obj([]))) == None;
  }

  /** The request as it came, with its tenant segment in front, and as it was served. */
  predicate Splits(f: Brain, req: Request, tenant: string, rest: string, r: Ctx, ctx: Ctx) {
    && f.pathHeader.Some? && TenantFirst(req, tenant, rest)
    && FromFilter(req) == Some(r) && FromFilter(Filter.Seen(f, req)) == Some(ctx)
  }

  lemma SplitsAre(f: Brain, req: Request, tenant: string, rest: string, r: Ctx, ctx: Ctx)
    requires Splits(f, req, tenant, rest, r, ctx)
    ensures Rewritten(f, req)
    ensures var segs := Segments(PathOf(rest));
            var (came, served) := (ClassifySegments(r.verb, [tenant] + segs), ClassifySegments(r.verb, segs));
            && r.verb == ctx.verb && ParseMethod(req.verb) == Some(r.verb)
            && r.endpoint == came.endpoint && r.logicalIndex == came.index && r.docId == came.docId
            && ctx.endpoint == served.endpoint && ctx.logicalIndex == served.index && ctx.docId == served.docId
  {
    PrefixedIsSplit(tenant, rest);
    PrefixSplit(tenant, rest);
    PrefixedSegments(tenant, PathOf(rest));
  }

  // ----- cluster-level requests -----

  /** The tenant's own store refuses the request, or answers it naming no document. */
  predicate ShowsNoName(sc: Scope, ctx: Ctx) {
    match sc.tenancy.ResolvePartition(ctx)
    case Err(_) => true
    case Ok(t) =>
      match LogicalOp(sc, t, ctx)
      case Err(_) => true
      case Ok(op) => NamesNothing(op)
  }

  /** Under a view that calls the index by another name, no document is named alike. */
  lemma OtherIndexNames(sc: Scope, t: string, partition: string, index: string, other: string, op: Engine.Op<string>)
    requires index != other
    ensures NamedSame(op, ForeignNaming(sc, t, partition, other), LogicalNaming(index)) <==> NamesNothing(op)
  {
    var n, m := ForeignNaming(sc, t, partition, other), LogicalNaming(index);
    assert forall x :: n(x).0 != m(x).0;
    match op
    case FetchMany(xs) => if xs != [] { assert n(xs[0]) != m(xs[0]); }
    case _ =>
  }

  /** A list shown for a request under another index name, not shaped as one document, is the
      tenant's own text exactly when it names no document. */
  lemma ListShownIff(sc: Scope, t: string, r: Ctx, index: string, own: Own, op: Engine.Op<string>)
    requires r.logicalIndex != index && !(r.endpoint.GetById? && r.docId.Some?)
    requires Named(sc, t) || sc.tenancy.sharedIndex != index
    ensures TextAlike(sc, t, r, index, own, op) <==> NamesNothing(op)
  {
    RawAlikeNamesNothing(sc, t, index, own, op);
    if sc.tenancy.ResolvePartition(r).Ok? {
      OtherIndexNames(sc, t, sc.tenancy.ResolvePartition(r).value, index, r.logicalIndex, op);
    }
    ListTextIs(sc, t, r, index, own, op);
  }

  /** Not shaped as one document, a list is compared name by name or as it is. */
  lemma ListTextIs(sc: Scope, t: string, r: Ctx, index: string, own: Own, op: Engine.Op<string>)
    requires !(r.endpoint.GetById? && r.docId.Some?)
    ensures TextAlike(sc, t, r, index, own, op) <==>
            if sc.tenancy.ResolvePartition(r).Ok? && SameKind(r, op)
            then NamedSame(op, ForeignNaming(sc, t, sc.tenancy.ResolvePartition(r).value, r.logicalIndex),
                           LogicalNaming(index))
            else RawAlike(sc, t, index, own, op)
  {
  }

  predicate ClusterLevel(rest: string) {
    Segments(PathOf(rest)) == ["_bulk"] || Segments(PathOf(rest)) == ["_mget"]
  }

  lemma ClusterLevelIs(m: Method, tenant: string, op: string)
    requires tenant != "" && (op == "_bulk" || op == "_mget")
    ensures var came := ClassifySegments(m, [tenant] + [op]);
            && !came.endpoint.GetById?
            && (if IsAdminRoot(tenant) then came.endpoint == Admin
                else came.index == tenant && came.endpoint == if op == "_bulk" then IngestBulk else MultiGet)
    ensures ClassifySegments(m, [op]) == Classified("", if op == "_bulk" then IngestBulk else MultiGet, None)
  {
    var all := [tenant] + [op];
    assert all[0] == tenant && all[1] == op && all[2..] == [];
  }

  /** A cluster-level bulk or mget behind a tenant segment, shaped or not: what is shown is the
      tenant's own text exactly when the answer names no document. Shaped under the tenant's name
      as index, or not at all, the answer never has the empty index the tenant's own has. */
  lemma ClusterLevelShownIff(sc: Scope, f: Brain, privs: Privates, req: Request, tenant: string, rest: string,
                             r: Ctx, ctx: Ctx)
    requires sc.Sound() && Splits(f, req, tenant, rest, r, ctx) && ClusterLevel(rest)
    requires !RefusedForMtls(f, ctx, Filter.Seen(f, req)) && "" !in f.passthrough
    ensures ShownAlike(sc, f, privs, req) <==> ShowsNoName(sc, ctx)
  {
    SplitsAre(f, req, tenant, rest, r, ctx);
    ClusterLevelIs(r.verb, tenant, Segments(PathOf(rest))[0]);
    AlikeWhenServed(sc, f, privs, req, ctx);
    if sc.tenancy.ResolvePartition(ctx).Ok? {
      var t := sc.tenancy.ResolvePartition(ctx).value;
      if LogicalOp(sc, t, ctx).Ok? {
        ClusterTextIff(sc, t, r, tenant, PrivateOf(privs, t), LogicalOp(sc, t, ctx).value);
      }
    }
  }

  lemma ClusterTextIff(sc: Scope, t: string, r: Ctx, tenant: string, own: Own, op: Engine.Op<string>)
    requires sc.Sound() && !r.endpoint.GetById?
    requires r.logicalIndex != "" || r.endpoint == Admin
    ensures TextAlike(sc, t, r, "", own, op) <==> NamesNothing(op)
  {
    if r.logicalIndex != "" {
      ListShownIff(sc, t, r, "", own, op);
    } else {
      RawAlikeNamesNothing(sc, t, "", own, op);
    }
  }

  /** The same, of the step itself: what the brain shows of such a request in any represented
      store. */
  lemma ClusterLevelStep(sc: Scope, f: Brain, home: string, docs: Docs, w: World, req: Request,
                         tenant: string, rest: string, r: Ctx, ctx: Ctx)
    requires sc.Sound() && f.router == sc.tenancy.AsRouter() && Separated(sc, w.privs.Keys) && Stands(sc, docs, w)
    requires Splits(f, req, tenant, rest, r, ctx) && ClusterLevel(rest) && From(sc, w.privs.Keys, ctx)
    requires !RefusedForMtls(f, ctx, Filter.Seen(f, req)) && "" !in f.passthrough
    ensures BrainStep(f, home, docs, req).1 == PrivateStep(sc, w.privs, ctx).1 <==> ShowsNoName(sc, ctx)
  {
    SplitsAre(f, req, tenant, rest, r, ctx);
    ClusterLevelIs(r.verb, tenant, Segments(PathOf(rest))[0]);
    ServedStep(sc, f, home, docs, w, req, ctx);
    ClusterLevelShownIff(sc, f, w.privs, req, tenant, rest, r, ctx);
  }

  /** Such responses are shaped, too: whenever the tenancy has a default partition, for every
      tenant segment that is no administrative root. */
  lemma ClusterLevelShaped(tenancy: Tenancy, f: Brain, req: Request, tenant: string, rest: string)
    requires f.router == tenancy.AsRouter() && f.pathHeader.Some? && TenantFirst(req, tenant, rest)
    requires ClusterLevel(rest) && tenancy.defaultPartition.Some? && !IsAdminRoot(tenant)
    ensures Rewritten(f, req) && !Unshaped(f, req)
  {
    PrefixedIsSplit(tenant, rest);
    UnshapedIff(f, req, tenant, rest);
  }

  // ----- gets of one document -----

  /** A tenant-prefixed get of any index not named like an operation. */
  lemma PrefixedGetIs(f: Brain, req: Request, header: string, t: string, index: string, id: string)
    requires f.pathHeader == Some(header) && TenantSegment(t) && req.verb == "GET"
    requires PlainIndex(index) && !IsOperation(index) && Plain(id)
    requires req.pathAndQuery == "/" + t + SegmentPath(index, id)
    ensures Rewritten(f, req) && Unshaped(f, req)
    ensures var ctx := FromFilter(Filter.Seen(f, req));
            && ctx.Some? && ctx.value.endpoint == GetById && ctx.value.verb == GET
            && ctx.value.logicalIndex == index && ctx.value.docId == Some(id)
  {
    PrefixedIsSplit(t, SegmentPath(index, id));
    DocPathAlone(index, id);
    assert TenantFirst(req, t, SegmentPath(index, id));
    NotShapedOperation(index, id);
    UnshapedIff(f, req, t, SegmentPath(index, id));
  }

  lemma DocPathAlone(index: string, id: string)
    requires PlainIndex(index) && Plain(id)
    ensures var path := SegmentPath(index, id);
            && PathOf(path) == path && Segments(path) == [index, "_doc", id]
            && Classify(GET, path) == Classified(index, GetById, Some(id))
  {
    var path := SegmentPath(index, id);
    SegmentPathFree(index, id);
    SplitQuery(path, "");
    assert path + "" == path;
    ClassifySegmentPath(GET, index, id);
    Segments3(index, "_doc", id);
  }

  lemma NotShapedOperation(index: string, id: string)
    requires !IsOperation(index)
    ensures !ShapedOperation(GET, [index, "_doc", id])
  {
  }

  lemma GetServed(f: Brain, home: string, docs: Docs, req: Request, ctx: Ctx)
    requires FromFilter(Filter.Seen(f, req)) == Some(ctx) && ctx.endpoint == GetById && ctx.logicalIndex !in f.passthrough
    ensures BrainStep(f, home, docs, req) == PassedStep(f, docs, req, ctx)
  {
    BrainIsShared(f, home, docs, req);
  }

  /** It is shown the physical index and id and the stamped document. */
  lemma PrefixedGetShown(sc: Scope, f: Brain, home: string, docs: Docs, w: World, req: Request, ctx: Ctx, t: string)
    requires sc.Sound() && f.router == sc.tenancy.AsRouter() && Separated(sc, w.privs.Keys) && Stands(sc, docs, w)
    requires t in w.privs && Unshaped(f, req) && FromFilter(req).Some?
    requires FromFilter(Filter.Seen(f, req)) == Some(ctx) && sc.tenancy.ResolvePartition(ctx) == Ok(t)
    requires ctx.endpoint == GetById && ctx.verb == GET && ctx.docId.Some? && ctx.logicalIndex !in f.passthrough
    requires sc.shape.Physical(t, ctx.docId.value) != ""
    ensures var x := ctx.docId.value;
            BrainStep(f, home, docs, req).1
            == Shown(RawText(sc, t, Engine.Fetched(x, Engine.Lookup(w.privs[t], x))))
  {
    GetServed(f, home, docs, req, ctx);
    PassedGet(sc, f, docs, w.privs, req, FromFilter(req).value, ctx, t);
    var x := ctx.docId.value;
    UnshapedBody(sc, f, req, RawText(sc, t, Engine.Fetched(x, Engine.Lookup(w.privs[t], x))));
  }

  lemma PassedGet(sc: Scope, f: Brain, docs: Docs, privs: Privates, req: Request, r: Ctx, ctx: Ctx, t: string)
    requires sc.Sound() && f.router == sc.tenancy.AsRouter() && Separated(sc, privs.Keys)
    requires Represents(sc, Side(SharedPlace(sc), true, docs), privs) && t in privs
    requires FromFilter(req) == Some(r) && sc.tenancy.ResolvePartition(ctx) == Ok(t)
    requires ctx.endpoint == GetById && ctx.verb == GET && ctx.docId.Some?
    requires sc.shape.Physical(t, ctx.docId.value) != ""
    ensures var x := ctx.docId.value;
            PassedStep(f, docs, req, ctx).1
            == Shown(ClientBody(f.router, r, RawText(sc, t, Engine.Fetched(x, Engine.Lookup(privs[t], x)))))
  {
    PassedShows(sc, f, docs, privs, req, r, ctx, t);
  }

  lemma UnshapedBody(sc: Scope, f: Brain, req: Request, text: string)
    requires Unshaped(f, req) && FromFilter(req).Some?
    ensures ClientBody(f.router, FromFilter(req).value, text) == text
  {
    assert ShapeResponse(f, req, text) == None;
  }

  /** And that is the text its own store would have shown exactly when the document is absent and
      the shared store names it as the tenant does, which no template with text around the id
      allows. */
  lemma PrefixedGetIff(sc: Scope, t: string, index: string, x: string, doc: Option<Json>)
    requires sc.Sound() && StorableOption(sc, doc)
    ensures RawText(sc, t, Engine.Fetched(x, doc)) == Found(index, x, doc) <==> SameName(sc, t, index, x) && doc.None?
    ensures Named(sc, t) ==> !SameName(sc, t, index, x)
  {
    RawFetched(sc, t, index, x, doc);
    if Named(sc, t) { PhysicalMoves(sc, t, x); }
  }
}
