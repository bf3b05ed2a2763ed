/** What the configuration decides, said of the prepared request: which partition, which cluster
    and host, and which writes are held. */
module Configured {
  import opened Common
  import opened Adapter
  import opened Ndjson
  import opened Transform
  import opened Route
  import opened Reference
  import opened Filter
  import Bulk
  import Demux

  // ----- the partition -----

  /** The partition a request names itself: its principal, or the first header of the configured
      name. */
  ghost predicate Names(tenancy: Tenancy, ctx: Ctx, t: string) {
    if tenancy.fromPrincipal then ctx.principal == t && t != ""
    else exists i: nat :: FirstNamed(ctx.headers, tenancy.partitionHeader, i) && ctx.headers[i].1 == t
  }

  lemma NamedPartition(tenancy: Tenancy, ctx: Ctx, t: string)
    requires Names(tenancy, ctx, t)
    ensures tenancy.ResolvePartition(ctx) == Ok(t)
  {
    if !tenancy.fromPrincipal {
      var i: nat :| FirstNamed(ctx.headers, tenancy.partitionHeader, i) && ctx.headers[i].1 == t;
      HeaderValueAt(ctx.headers, tenancy.partitionHeader, i);
    }
  }

  lemma UnnamedPartition(tenancy: Tenancy, ctx: Ctx)
    requires forall t :: !Names(tenancy, ctx, t)
    ensures tenancy.ResolvePartition(ctx) ==
            if tenancy.defaultPartition.Some? then Ok(tenancy.defaultPartition.value) else Err(PartitionUnresolved)
  {
    if tenancy.fromPrincipal {
      assert !Names(tenancy, ctx, ctx.principal);
    } else if HeaderValue(ctx.headers, tenancy.partitionHeader).Some? {
      var i := FirstOf(ctx.headers, tenancy.partitionHeader);
      assert Names(tenancy, ctx, ctx.headers[i].1);
    }
  }

  /** The partition is the one the request names, else the default one. */
  lemma PartitionIff(tenancy: Tenancy, ctx: Ctx, t: string)
    ensures tenancy.ResolvePartition(ctx) == Ok(t) <==>
            Names(tenancy, ctx, t)
            || ((forall u :: !Names(tenancy, ctx, u)) && tenancy.defaultPartition == Some(t))
  {
    if u :| Names(tenancy, ctx, u) {
      NamedPartition(tenancy, ctx, u);
      if Names(tenancy, ctx, t) { NamedPartition(tenancy, ctx, t); }
    } else {
      UnnamedPartition(tenancy, ctx);
    }
  }

  /** A request that names no partition, where there is no default, is refused on every supported
      endpoint and reaches no upstream. */
  lemma UnnamedRefused(tenancy: Tenancy, ctx: Ctx)
    requires (forall t :: !Names(tenancy, ctx, t)) && tenancy.defaultPartition == None && Supported(ctx.endpoint)
    ensures Prepare(tenancy.AsRouter(), ctx) == Immediate(ErrorReply(400, "partition_unresolved"))
  {
    UnnamedPartition(tenancy, ctx);
  }

  // ----- the cluster and the host -----

  /** What a map of overrides gives a partition. */
  predicate Chosen(overrides: map<string, string>, other: string, t: string, choice: string) {
    if t in overrides then overrides[t] == choice else other == choice
  }

  /** Every forwarded request of a tenant goes to the cluster configured for it, or to the default
      one, and carries the authority of the base URL configured for it, or of the default one. */
  lemma SentWhereConfigured(tenancy: Tenancy, ctx: Ctx, t: string, url: string)
    requires tenancy.ResolvePartition(ctx) == Ok(t) && Prepare(tenancy.AsRouter(), ctx).Upstream?
    requires Chosen(tenancy.endpointBy, tenancy.endpoint, t, url)
    ensures var f := Prepare(tenancy.AsRouter(), ctx).f;
            Chosen(tenancy.clusterBy, tenancy.cluster, t, f.cluster) && f.upstreamHost == AuthorityOf(url)
  {
  }

  /** The same of a raw request through the whole brain. */
  lemma HandledWhereConfigured(tenancy: Tenancy, f: Brain, req: Request, ctx: Ctx, t: string, url: string)
    requires f.router == tenancy.AsRouter() && FromFilter(Filter.Seen(f, req)) == Some(ctx)
    requires tenancy.ResolvePartition(ctx) == Ok(t) && Handled(f, req).Forwarded? && !Passes(f, req)
    requires Chosen(tenancy.endpointBy, tenancy.endpoint, t, url)
    ensures var o := Handled(f, req);
            && o.cluster.Some? && Chosen(tenancy.clusterBy, tenancy.cluster, t, o.cluster.value)
            && o.host == AuthorityOf(url)
  {
    HandledIs(f, req);
    SentWhereConfigured(tenancy, ctx, t, url);
  }

  /** A forwarded request sent elsewhere, and nothing else changed. */
  function Resent(forward: Forward, cluster: string, host: Option<string>): Forward {
    match forward
    case Upstream(f) => Upstream(f.(cluster := cluster, upstreamHost := host))
    case Immediate(_) => forward
  }

  /** Two decisions that rewrite alike. */
  predicate SameRewriting(p: Resolved, q: Resolved) {
    p.partition == q.partition && p.transform == q.transform && p.target.index == q.target.index
  }

  lemma SameOneDoc(p: Resolved, q: Resolved, ctx: Ctx)
    requires SameRewriting(p, q) && p.headerOps == q.headerOps
    ensures WriteForward(q, ctx) == Resent(WriteForward(p, ctx), q.target.cluster, HostOf(q))
    ensures ByIdForward(q, ctx) == Resent(ByIdForward(p, ctx), q.target.cluster, HostOf(q))
  {
  }

  lemma SameBody(p: Resolved, q: Resolved, body: Result<string, PrepareError>, verb: string, path: string)
    requires p.headerOps == q.headerOps
    ensures OrReply(body, q, verb, path) == Resent(OrReply(body, p, verb, path), q.target.cluster, HostOf(q))
  {
  }

  /** They forward alike but for where. */
  lemma RetargetedForward(p: Resolved, q: Resolved, ctx: Ctx)
    requires SameRewriting(p, q) && p.headerOps == q.headerOps
    ensures ForwardFor(q, ctx) == Resent(ForwardFor(p, ctx), q.target.cluster, HostOf(q))
  {
    match ctx.endpoint
    case IngestDoc => SameOneDoc(p, q, ctx);
    case GetById => SameOneDoc(p, q, ctx);
    case DeleteById => SameOneDoc(p, q, ctx);
    case IngestBulk =>
      SameItems(p, q, ctx.body);
      SameBody(p, q, Bulk.RewriteBulk(p, ctx.body), "POST", "/_bulk");
    case MultiGet =>
      SameDocs(p, q, ctx.body);
      SameBody(p, q, Demux.RewriteMget(p, ctx.body), "POST", "/_mget");
    case MultiSearch =>
      SameSearches(p, q, ctx.body);
      SameBody(p, q, Demux.RewriteMsearch(p, ctx.body), "POST", "/_msearch");
    case Search => SameQuery(p, q, ctx, "_search");
    case Count => SameQuery(p, q, ctx, "_count");
    case _ =>
  }

  lemma SameQuery(p: Resolved, q: Resolved, ctx: Ctx, verb: string)
    requires SameRewriting(p, q) && p.headerOps == q.headerOps
    ensures QueryForward(q, ctx, verb) == Resent(QueryForward(p, ctx, verb), q.target.cluster, HostOf(q))
  {
    SameBody(p, q, FilteredQuery(ctx.body, FilterTerms(p.transform, p.partition)), "POST",
             "/" + p.target.index + "/" + verb);
  }

  lemma {:induction false} SameItemLines(p: Resolved, q: Resolved, items: seq<BulkItem>)
    requires SameRewriting(p, q)
    ensures Bulk.ItemsLines(q, items) == Bulk.ItemsLines(p, items)
  {
    if items != [] { SameItemLines(p, q, items[1..]); }
  }

  lemma SameItems(p: Resolved, q: Resolved, body: string)
    requires SameRewriting(p, q)
    ensures Bulk.RewriteBulk(q, body) == Bulk.RewriteBulk(p, body)
  {
    if ParseBulk(body).Ok? { SameItemLines(p, q, ParseBulk(body).value); }
  }

  lemma {:induction false} SameMgetDocs(p: Resolved, q: Resolved, ids: seq<string>)
    requires SameRewriting(p, q)
    ensures Demux.MgetDocs(q, ids) == Demux.MgetDocs(p, ids)
  {
    if ids != [] { SameMgetDocs(p, q, ids[1..]); }
  }

  lemma SameDocs(p: Resolved, q: Resolved, body: string)
    requires SameRewriting(p, q)
    ensures Demux.RewriteMget(q, body) == Demux.RewriteMget(p, body)
  {
    if ParseMget(body).Ok? { SameMgetDocs(p, q, ParseMget(body).value); }
  }

  lemma {:induction false} SameSearchLines(p: Resolved, q: Resolved, items: seq<(string, string)>)
    requires SameRewriting(p, q)
    ensures Demux.SearchLines(q, items) == Demux.SearchLines(p, items)
  {
    if items != [] { SameSearchLines(p, q, items[1..]); }
  }

  lemma SameSearches(p: Resolved, q: Resolved, body: string)
    requires SameRewriting(p, q)
    ensures Demux.RewriteMsearch(q, body) == Demux.RewriteMsearch(p, body)
  {
    if ParseMsearch(body).Ok? { SameSearchLines(p, q, ParseMsearch(body).value); }
  }

  /** Two tenancies that find the same partitions, and give this request's the same index, transform
      and write gate, prepare it alike but for where it goes. */
  lemma SamePrepared(tenancy: Tenancy, moved: Tenancy, ctx: Ctx, t: string)
    requires tenancy.ResolvePartition(ctx) == Ok(t) && moved.ResolvePartition(ctx) == Ok(t)
    requires SameRewriting(tenancy.Decide(t, ctx.logicalIndex), moved.Decide(t, ctx.logicalIndex))
    requires ctx.endpoint.IsWrite() ==> (tenancy.AdmitWrite(t) <==> moved.AdmitWrite(t))
    ensures Prepare(moved.AsRouter(), ctx) ==
            Resent(Prepare(tenancy.AsRouter(), ctx), moved.ClusterFor(t), AuthorityOf(moved.EndpointFor(t)))
  {
    RetargetedForward(tenancy.Decide(t, ctx.logicalIndex), moved.Decide(t, ctx.logicalIndex), ctx);
  }

  lemma ResentHome(tenancy: Tenancy, ctx: Ctx, t: string)
    requires tenancy.ResolvePartition(ctx) == Ok(t)
    ensures Prepare(tenancy.AsRouter(), ctx) ==
            Resent(Prepare(tenancy.AsRouter(), ctx), tenancy.ClusterFor(t), AuthorityOf(tenancy.EndpointFor(t)))
  {
    SamePrepared(tenancy, tenancy, ctx, t);
  }

  /** The tenancy with a cluster, or a base URL, of its own for one partition. */
  function WithCluster(tenancy: Tenancy, t: string, cluster: string): Tenancy {
    tenancy.(clusterBy := tenancy.clusterBy[t := cluster])
  }

  function WithEndpoint(tenancy: Tenancy, t: string, url: string): Tenancy {
    tenancy.(endpointBy := tenancy.endpointBy[t := url])
  }

  lemma UnresolvedAlike(tenancy: Tenancy, moved: Tenancy, ctx: Ctx)
    requires tenancy.ResolvePartition(ctx).Err? && moved.ResolvePartition(ctx) == tenancy.ResolvePartition(ctx)
    ensures Prepare(moved.AsRouter(), ctx) == Prepare(tenancy.AsRouter(), ctx)
  {
  }

  /** Giving one tenant a cluster of its own sends that tenant's requests there and changes nothing
      else about them; every other request is prepared as before. */
  lemma ClusterOverride(tenancy: Tenancy, t: string, cluster: string, ctx: Ctx)
    ensures var was := Prepare(tenancy.AsRouter(), ctx);
            var now := Prepare(WithCluster(tenancy, t, cluster).AsRouter(), ctx);
            if tenancy.ResolvePartition(ctx) == Ok(t) && was.Upstream?
            then now == Upstream(was.f.(cluster := cluster)) else now == was
  {
    var moved := WithCluster(tenancy, t, cluster);
    match tenancy.ResolvePartition(ctx)
    case Ok(u) =>
      SamePrepared(tenancy, moved, ctx, u);
      ResentHome(tenancy, ctx, u);
    case Err(_) => UnresolvedAlike(tenancy, moved, ctx);
  }

  /** And a base URL of its own, the host. */
  lemma EndpointOverride(tenancy: Tenancy, t: string, url: string, ctx: Ctx)
    ensures var was := Prepare(tenancy.AsRouter(), ctx);
            var now := Prepare(WithEndpoint(tenancy, t, url).AsRouter(), ctx);
            if tenancy.ResolvePartition(ctx) == Ok(t) && was.Upstream?
            then now == Upstream(was.f.(upstreamHost := AuthorityOf(url))) else now == was
  {
    var moved := WithEndpoint(tenancy, t, url);
    match tenancy.ResolvePartition(ctx)
    case Ok(u) =>
      SamePrepared(tenancy, moved, ctx, u);
      ResentHome(tenancy, ctx, u);
    case Err(_) => UnresolvedAlike(tenancy, moved, ctx);
  }

  /** What a decision says of a migration: the phase of the partition that is migrating, and that
      every other one is settled. */
  lemma DecisionIs(tenancy: Tenancy, ctx: Ctx, p: Resolved)
    requires tenancy.AsRouter().resolve(ctx) == Ok(p)
    ensures tenancy.ResolvePartition(ctx) == Ok(p.partition) && p.epoch == 1 && p.headerOps == []
    ensures match tenancy.migration
            case Some(moving) => p.migration == if moving.0 == p.partition then moving.1 else Settled
            case None => p.migration == Settled
  {
  }

  // ----- the write gate -----

  const Held := Immediate(ErrorReply(409, "stale_epoch"))

  lemma NeverHeldOtherwise(p: Resolved, ctx: Ctx)
    ensures ForwardFor(p, ctx) != Held
  {
  }

  /** A tenant's request on a supported endpoint is held exactly when it writes and the tenant is
      the one whose migration is in cutover: not before, while it drains, and not for anyone else. */
  lemma HeldIff(tenancy: Tenancy, ctx: Ctx, t: string)
    requires tenancy.ResolvePartition(ctx) == Ok(t) && Supported(ctx.endpoint)
    ensures Prepare(tenancy.AsRouter(), ctx) == Held <==>
            ctx.endpoint in {IngestDoc, IngestBulk, DeleteById} && tenancy.migration == Some((t, Cutover))
  {
    NeverHeldOtherwise(tenancy.Decide(t, ctx.logicalIndex), ctx);
  }

  /** Nothing else of a migration shows: unless it holds the request, the request is prepared as if
      there were none. */
  lemma MigrationUnseen(tenancy: Tenancy, ctx: Ctx)
    requires Prepare(tenancy.AsRouter(), ctx) != Held
    ensures Prepare(tenancy.AsRouter(), ctx) == Prepare(tenancy.(migration := None).AsRouter(), ctx)
  {
    var settled := tenancy.(migration := None);
    match tenancy.ResolvePartition(ctx)
    case Ok(t) =>
      if Supported(ctx.endpoint) {
        HeldIff(tenancy, ctx, t);
        SamePrepared(tenancy, settled, ctx, t);
        ResentHome(tenancy, ctx, t);
      }
    case Err(_) => UnresolvedAlike(tenancy, settled, ctx);
  }
}
