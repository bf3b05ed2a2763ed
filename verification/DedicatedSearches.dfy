/** Searches, counts and multi-searches in the dedicated modes: the client's own query is asked of
    the tenant's own index and cluster, and finds documents of its own place only. */
module DedicatedSearches {
  import opened Common
  import opened Json
  import opened Rewrite
  import opened Ndjson
  import opened Adapter
  import opened Transform
  import opened Route
  import opened Reference
  import opened Shared
  import opened Wire
  import opened Runs
  import opened Search
  import opened Sides
  import opened Dedicated
  import opened DedicatedReads
  import opened DedicatedRuns
  import opened Configured
  import Demux

  /** The index of a tenant's request: the tenant's, or the one the client names when the tenant has
      a cluster of its own. */
  predicate OwnIndex(tenancy: Tenancy, t: string, logical: string, index: string) {
    if tenancy.isolation == DedicatedIndex then index == tenancy.IndexFor(t) else index == logical
  }

  function VerbOf(endpoint: Endpoint): string {
    if endpoint == Count then "_count" else "_search"
  }

  // ----- one search -----

  /** A search or count of a tenant is forwarded with the client's own body, to the tenant's own
      index on the cluster configured for it. */
  lemma SearchForwardedAsIs(tenancy: Tenancy, ctx: Ctx, t: string, index: string)
    requires OwnPlaces(tenancy) && tenancy.ResolvePartition(ctx) == Ok(t)
    requires ctx.endpoint == Endpoint.Search || ctx.endpoint == Count
    requires OwnIndex(tenancy, t, ctx.logicalIndex, index)
    ensures var forward := Prepare(tenancy.AsRouter(), ctx);
            && forward.Upstream? && forward.f.verb == "POST" && forward.f.body == ctx.body
            && forward.f.path == "/" + index + "/" + VerbOf(ctx.endpoint)
            && Chosen(tenancy.clusterBy, tenancy.cluster, t, forward.f.cluster)
  {
  }

  lemma VerbAlone(verb: string)
    requires verb in {"_search", "_count"}
    ensures Classify(POST, PathOf("/" + "" + "/" + verb)) ==
            Classified("", if verb == "_search" then Endpoint.Search else Count, None)
  {
    var path := "/" + "" + "/" + verb;
    assert path == "/" + ("/" + verb);
    assert Free(verb, '?') && Free(verb, '/') && verb != "";
    assert Free(path, '?');
    SplitQuery(path, "");
    assert path + "" == path;
    assert path[1..] == "/" + verb;
    assert TrimLeft(path, '/') == TrimLeft("/" + verb, '/');
    Segments1(verb);
    VerbOnly(verb);
  }

  lemma VerbOnly(verb: string)
    requires verb in {"_search", "_count"}
    ensures ClassifySegments(POST, [verb]) == Classified("", if verb == "_search" then Endpoint.Search else Count, None)
  {
  }

  /** That path is read as the same request of the same index exactly when the index is plain, or
      none was named. */
  lemma SearchReachesIff(index: string, verb: string)
    requires verb in {"_search", "_count"}
    ensures Classify(POST, PathOf("/" + index + "/" + verb))
            == Classified(index, if verb == "_search" then Endpoint.Search else Count, None)
            <==> PlainIndex(index) || index == ""
  {
    if PlainIndex(index) {
      VerbPath(index, verb);
    } else if index == "" {
      VerbAlone(verb);
    } else {
      IndexReadIsPlain(POST, "/" + index + "/" + verb);
    }
  }

  // ----- a multi-search -----

  /** The forwarded body asks the client's own queries, position by position, each of this index. */
  predicate AsksAsIs(items: seq<(string, string)>, now: seq<(string, string)>, index: string) {
    |now| == |items| && forall i :: 0 <= i < |items| ==>
      now[i].1 == items[i].1 && ParseObject(now[i].0) == Ok([("index", Str(index))])
  }

  lemma PlainSearches(p: Resolved, body: string)
    requires p.transform == NoTransform && ParseMsearch(body).Ok?
    ensures var again := Demux.RewriteMsearch(p, body);
            && again.Ok? && ParseMsearch(again.value).Ok?
            && AsksAsIs(ParseMsearch(body).value, ParseMsearch(again.value).value, p.target.index)
  {
    var items := ParseMsearch(body).value;
    assert FilterTerms(p.transform, p.partition) == [];
    AllUnfiltered(p, items);
    Demux.RewrittenMsearchRead(p, body);
    Demux.HeaderLineRead(p);
  }

  lemma {:induction false} AllUnfiltered(p: Resolved, items: seq<(string, string)>)
    requires p.transform == NoTransform
    ensures Demux.SearchLines(p, items).Ok?
  {
    if items != [] { AllUnfiltered(p, items[1..]); }
  }

  lemma MsearchForward(p: Resolved, ctx: Ctx)
    requires ctx.endpoint == MultiSearch
    ensures ForwardFor(p, ctx) == OrReply(Demux.RewriteMsearch(p, ctx.body), p, "POST", "/_msearch")
  {
  }

  /** A multi-search of a tenant is forwarded with the client's own query at every position, each
      for the tenant's own index; a body that is no multi-search is refused. */
  lemma MsearchForwardedAsIs(tenancy: Tenancy, ctx: Ctx, t: string, index: string)
    requires OwnPlaces(tenancy) && tenancy.ResolvePartition(ctx) == Ok(t) && ctx.endpoint == MultiSearch
    requires OwnIndex(tenancy, t, ctx.logicalIndex, index)
    ensures var forward := Prepare(tenancy.AsRouter(), ctx);
            if ParseMsearch(ctx.body).Err? then forward == Immediate(ErrorReply(400, "body_rewrite_failed"))
            else
              && forward.Upstream? && forward.f.verb == "POST" && forward.f.path == "/_msearch"
              && Chosen(tenancy.clusterBy, tenancy.cluster, t, forward.f.cluster)
              && ParseMsearch(forward.f.body).Ok?
              && AsksAsIs(ParseMsearch(ctx.body).value, ParseMsearch(forward.f.body).value, index)
  {
    MsearchForward(tenancy.Decide(t, ctx.logicalIndex), ctx);
    if ParseMsearch(ctx.body).Ok? { PlainSearches(tenancy.Decide(t, ctx.logicalIndex), ctx.body); }
  }

  // ----- what it finds -----

  /** What a query asked of the tenant's own index and cluster finds. */
  function Hits(tenancy: Tenancy, docs: Docs, t: string, index: string, leaf: Leaf, q: Json): set<Key> {
    Matches(docs, tenancy.ClusterFor(t), index, leaf, q)
  }

  lemma HitsAtHome(tenancy: Tenancy, docs: Docs, t: string, logical: string, index: string, leaf: Leaf, q: Json)
    requires OwnPlaces(tenancy) && OwnIndex(tenancy, t, logical, index)
    ensures Hits(tenancy, docs, t, index, leaf, q)
            == Hits(tenancy, Side(PlaceOf(tenancy, t), true, docs), t, index, leaf, q)
  {
  }

  /** After every run of tenants whose places are apart, a query finds what it would find had the
      others never been there. */
  lemma SearchesAlone(tenancy: Tenancy, t: string, docs: Docs, run: seq<Ctx>, logical: string, index: string,
                      leaf: Leaf, q: Json)
    requires OwnPlaces(tenancy) && OwnIndex(tenancy, t, logical, index)
    requires forall i :: 0 <= i < |run| ==> Beside(tenancy, t, run[i])
    ensures var alone := Side(PlaceOf(tenancy, t), true, docs);
            Hits(tenancy, SharedRun(tenancy.AsRouter(), docs, run).0, t, index, leaf, q)
            == Hits(tenancy, SharedRun(tenancy.AsRouter(), alone, Mine(tenancy, t, run)).0, t, index, leaf, q)
  {
    AloneInEveryRun(tenancy, t, docs, run);
    HitsAtHome(tenancy, SharedRun(tenancy.AsRouter(), docs, run).0, t, logical, index, leaf, q);
  }
}
