/** Write detection, response shaping and explain look at a request's path as it came, while
    the body phase looks at the path without its tenant (crates/evoxy-filter/src/lib.rs).
    This module says exactly what they make of a tenant-prefixed path: the tenant stands where
    the index belongs, and the index where the operation belongs. */
module Prefixed {
  import opened Common
  import opened Json
  import opened Adapter
  import opened Route
  import opened Filter

  // ----- segments of a prefixed path -----

  lemma Regroup(a: string, c: char, b: string)
    ensures a + [c] + b + [c] == a + [c] + (b + [c])
    ensures a + [c] + "" == a + [c]
  {
  }

  lemma {:induction false} SplitSnoc(s: string, c: char)
    ensures Split(s + [c], c) == Split(s, c) + [""]
    decreases |s|
  {
    var r := SplitOnce(s, c);
    if r.None? {
      Regroup(s, c, "");
      SplitAt(s, c, "");
      SplitFree("", c);
    } else {
      var a, b := r.value.0, r.value.1;
      SplitSnoc(b, c);
      Regroup(a, c, b);
      SplitAt(a, c, b + [c]);
      assert [a] + (Split(b, c) + [""]) == [a] + Split(b, c) + [""];
    }
  }

  lemma {:induction false} NonEmptySnoc(parts: seq<string>)
    ensures NonEmpty(parts + [""]) == NonEmpty(parts)
  {
    if parts == [] {
      assert [] + [""] == [""] && [""][1..] == [];
    } else {
      NonEmptySnoc(parts[1..]);
      assert (parts + [""])[1..] == parts[1..] + [""];
    }
  }

  lemma {:induction false} TrimLeftSegments(s: string)
    ensures NonEmpty(Split(TrimLeft(s, '/'), '/')) == NonEmpty(Split(s, '/'))
  {
    if s != "" && s[0] == '/' {
      TrimLeftSegments(s[1..]);
      SplitAt("", '/', s[1..]);
      assert "" + ['/'] + s[1..] == s;
      assert ([""] + Split(s[1..], '/'))[1..] == Split(s[1..], '/');
    }
  }

  lemma {:induction false} TrimRightSegments(s: string)
    ensures NonEmpty(Split(TrimRight(s, '/'), '/')) == NonEmpty(Split(s, '/'))
    decreases |s|
  {
    if s != "" && s[|s| - 1] == '/' {
      var front := s[..|s| - 1];
      TrimRightSegments(front);
      SplitSnoc(front, '/');
      assert front + ['/'] == s;
      NonEmptySnoc(Split(front, '/'));
    }
  }

  /** Trimming slashes makes no difference to the segments. */
  lemma SegmentsAreNonEmpty(path: string)
    ensures Segments(path) == NonEmpty(Split(path, '/'))
  {
    TrimRightSegments(TrimLeft(path, '/'));
    TrimLeftSegments(path);
  }

  lemma PrefixedSegments(tenant: string, path: string)
    requires tenant != "" && Free(tenant, '/') && path != "" && path[0] == '/'
    ensures Segments("/" + tenant + path) == [tenant] + Segments(path)
  {
    SegmentsAreNonEmpty("/" + tenant + path);
    SegmentsAreNonEmpty(path);
    var more := path[1..];
    assert "/" + tenant + path == "" + ['/'] + (tenant + ['/'] + more);
    assert path == "" + ['/'] + more;
    SplitAt("", '/', tenant + ['/'] + more);
    SplitAt(tenant, '/', more);
    SplitAt("", '/', more);
    assert ([""] + Split(more, '/'))[1..] == Split(more, '/');
    assert ([tenant] + Split(more, '/'))[1..] == Split(more, '/');
    assert ([""] + Split(tenant + ['/'] + more, '/'))[1..] == Split(tenant + ['/'] + more, '/');
  }

  // ----- what the path reads as -----

  predicate WriteOperation(m: Method, segment: string) {
    segment in {"_create", "_update", "_bulk", "_delete_by_query"}
    || (segment == "_doc" && m in {PUT, POST, DELETE})
  }

  /** The segment behind the tenant is a write operation, or the tenant alone is `_bulk`. */
  predicate ReadsAsWrite(m: Method, tenant: string, segs: seq<string>) {
    if segs == [] then tenant == "_bulk" else !IsAdminRoot(tenant) && WriteOperation(m, segs[0])
  }

  predicate SupportedOperation(segment: string) {
    segment in {"_doc", "_create", "_update", "_bulk", "_search", "_count", "_mget", "_msearch"}
  }

  /** The path reads as a request the proxy serves. */
  predicate ReadsAsSupported(tenant: string, segs: seq<string>) {
    if segs == [] then tenant in {"_search", "_bulk", "_mget", "_msearch", "_count"}
    else !IsAdminRoot(tenant) && SupportedOperation(segs[0])
  }

  predicate ShapedOperation(m: Method, segs: seq<string>)
    requires segs != []
  {
    segs[0] in {"_search", "_bulk", "_mget", "_msearch"}
    || (segs[0] == "_doc" && m in {GET, HEAD} && |segs| >= 2)
  }

  /** The path reads as a request whose response is shaped. */
  predicate ReadsAsShaped(m: Method, tenant: string, segs: seq<string>) {
    if segs == [] then tenant in {"_search", "_bulk", "_mget", "_msearch"}
    else !IsAdminRoot(tenant) && ShapedOperation(m, segs)
  }

  /** The response of this context is one that is shaped. */
  predicate Shapes(endpoint: Endpoint, docId: Option<string>) {
    endpoint.Search? || endpoint.IngestBulk? || endpoint.MultiGet? || endpoint.MultiSearch?
    || (endpoint.GetById? && docId.Some?)
  }

  lemma ScopedReads(m: Method, tenant: string, segs: seq<string>)
    requires segs != [] && !IsAdminRoot(tenant)
    ensures var c := IndexScoped(m, tenant, segs[0], segs[1..]);
            && (c.endpoint.IsWrite() <==> WriteOperation(m, segs[0]))
            && (Supported(c.endpoint) <==> SupportedOperation(segs[0]))
            && (Shapes(c.endpoint, c.docId) <==> ShapedOperation(m, segs))
  {
  }

  lemma ScopedClass(m: Method, tenant: string, segs: seq<string>)
    requires segs != [] && !IsAdminRoot(tenant)
    ensures ClassifySegments(m, [tenant] + segs) ==
            if tenant == "_search" && segs[0] == "scroll" then Classified("", Cursor, None)
            else IndexScoped(m, tenant, segs[0], segs[1..])
  {
    var all := [tenant] + segs;
    assert all[0] == tenant && all[1] == segs[0] && all[2..] == segs[1..];
  }

  lemma AdminClass(m: Method, tenant: string, segs: seq<string>)
    requires segs != [] && IsAdminRoot(tenant)
    ensures ClassifySegments(m, [tenant] + segs) == Classified("", Admin, None)
  {
    var all := [tenant] + segs;
    assert all[0] == tenant;
  }

  lemma AloneReads(m: Method, tenant: string)
    ensures var c := ClassifySegments(m, [tenant]);
            && (c.endpoint.IsWrite() <==> ReadsAsWrite(m, tenant, []))
            && (Supported(c.endpoint) <==> ReadsAsSupported(tenant, []))
            && (Shapes(c.endpoint, c.docId) <==> ReadsAsShaped(m, tenant, []))
  {
  }

  lemma PrefixedReads(m: Method, tenant: string, segs: seq<string>)
    ensures var c := ClassifySegments(m, [tenant] + segs);
            && (c.endpoint.IsWrite() <==> ReadsAsWrite(m, tenant, segs))
            && (Supported(c.endpoint) <==> ReadsAsSupported(tenant, segs))
            && (Shapes(c.endpoint, c.docId) <==> ReadsAsShaped(m, tenant, segs))
  {
    if segs == [] {
      assert [tenant] + segs == [tenant];
      AloneReads(m, tenant);
    } else if IsAdminRoot(tenant) {
      AdminClass(m, tenant, segs);
    } else {
      ScopedClass(m, tenant, segs);
      ScopedReads(m, tenant, segs);
    }
  }

  // ----- what the phases make of it -----

  /** A tenant segment before a rooted path, and a method the proxy handles. */
  predicate TenantFirst(req: Request, tenant: string, rest: string) {
    && TenantSegment(tenant) && rest != "" && rest[0] == '/' && req.pathAndQuery == "/" + tenant + rest
    && ParseMethod(req.verb).Some?
  }

  /** The context of a prefixed request as it came. */
  lemma PrefixedContext(req: Request, tenant: string, rest: string)
    requires TenantFirst(req, tenant, rest)
    ensures FromFilter(req).Some?
    ensures var c := ClassifySegments(ParseMethod(req.verb).value, [tenant] + Segments(PathOf(rest)));
            FromFilter(req).value.endpoint == c.endpoint && FromFilter(req).value.docId == c.docId
  {
    PrefixSplit(tenant, rest);
    PrefixedSegments(tenant, PathOf(rest));
  }

  /** Write detection on a prefixed request. */
  lemma PrefixedWriteIff(f: Brain, req: Request, tenant: string, rest: string)
    requires TenantFirst(req, tenant, rest)
    ensures IsWrite(f, req) <==> ReadsAsWrite(ParseMethod(req.verb).value, tenant, Segments(PathOf(rest)))
  {
    PrefixedContext(req, tenant, rest);
    PrefixedReads(ParseMethod(req.verb).value, tenant, Segments(PathOf(rest)));
  }

  lemma ShapedReadIff(router: Router, ctx: Ctx, upstream: string)
    ensures ShapeReadResponse(router, ctx, upstream).Some? <==>
            Shapes(ctx.endpoint, ctx.docId) && router.resolve(ctx).Ok? && Parse(upstream).Some?
  {
  }

  /** Response shaping on a prefixed request. */
  lemma PrefixedShapedIff(f: Brain, req: Request, tenant: string, rest: string, upstream: string)
    requires TenantFirst(req, tenant, rest)
    ensures ShapeResponse(f, req, upstream).Some? <==>
            ReadsAsShaped(ParseMethod(req.verb).value, tenant, Segments(PathOf(rest)))
            && f.router.resolve(FromFilter(req).value).Ok? && Parse(upstream).Some?
  {
    PrefixedContext(req, tenant, rest);
    PrefixedReads(ParseMethod(req.verb).value, tenant, Segments(PathOf(rest)));
    ShapedReadIff(f.router, FromFilter(req).value, upstream);
  }

  lemma UnsupportedIff(router: Router, ctx: Ctx)
    ensures Explain(router, ctx) == Rejects(501, "endpoint_not_supported_yet") <==> !Supported(ctx.endpoint)
  {
    CodesApart();
  }

  lemma CodesApart()
    ensures forall e :: SpiCode(e) != "endpoint_not_supported_yet"
    ensures "stale_epoch" != "endpoint_not_supported_yet"
  {
    assert |"endpoint_not_supported_yet"| == 26;
  }

  /** Explain on a prefixed request. */
  lemma PrefixedExplainedIff(f: Brain, req: Request, tenant: string, rest: string)
    requires TenantFirst(req, tenant, rest)
    ensures ExplainRequest(f, req) == Rejects(501, "endpoint_not_supported_yet")
            <==> !ReadsAsSupported(tenant, Segments(PathOf(rest)))
  {
    PrefixedContext(req, tenant, rest);
    PrefixedReads(ParseMethod(req.verb).value, tenant, Segments(PathOf(rest)));
    UnsupportedIff(f.router, FromFilter(req).value);
  }

  predicate IsOperation(segment: string) {
    SupportedOperation(segment) || segment == "_delete_by_query" || segment == "_pit"
  }
}
