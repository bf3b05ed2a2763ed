/** Searches, counts and multi-searches as raw requests, in every store a run of raw requests can
    leave: what the brain has the upstream asked, and what the client is shown of the answer. */
module Searches {
  import opened Common
  import opened Json
  import opened Rewrite
  import opened Ndjson
  import opened Adapter
  import opened Transform
  import opened Response
  import opened Route
  import opened Filter
  import opened Shared
  import opened Wire
  import opened Replies
  import opened Runs
  import opened Search
  import opened Sides
  import opened EndToEnd
  import Demux

  /** A search of tenant `t`, served by the brain and not taken from a tenant-prefixed path. */
  predicate Served(sc: Scope, f: Brain, req: Request, ctx: Ctx, t: string, endpoint: Endpoint) {
    && FromFilter(req) == Some(ctx) && !Rewritten(f, req) && ctx.logicalIndex !in f.passthrough
    && ctx.endpoint == endpoint && sc.tenancy.ResolvePartition(ctx) == Ok(t)
  }

  lemma ServedIs(sc: Scope, f: Brain, req: Request, ctx: Ctx, t: string, endpoint: Endpoint)
    requires f.router == sc.tenancy.AsRouter() && Served(sc, f, req, ctx, t, endpoint) && !endpoint.IsWrite()
    ensures Handled(f, req) == ForwardOutcome(Prepare(sc.tenancy.AsRouter(), ctx))
    ensures forall top :: ShapeResponse(f, req, top) == ShapeReadResponse(sc.tenancy.AsRouter(), ctx, top)
  {
    HandledIs(f, req);
  }

  /** The upstream is asked this query, of the shared index on the tenant's cluster. */
  predicate AsksQuery(sc: Scope, o: Outcome, t: string, endpoint: Endpoint, q: Json) {
    && o.Forwarded? && o.verb == "POST" && o.cluster == Some(sc.tenancy.ClusterFor(t))
    && Classify(POST, PathOf(o.path)) == Classified(sc.tenancy.sharedIndex, endpoint, None)
    && ReadQuery(o.body) == Some(q)
  }

  /** Matches in the shared index are matches on its side. */
  lemma MatchesSide(sc: Scope, docs: Docs, cluster: string, leaf: Leaf, q: Json)
    ensures Matches(Side(SharedPlace(sc), true, docs), cluster, sc.tenancy.sharedIndex, leaf, q)
            == Matches(docs, cluster, sc.tenancy.sharedIndex, leaf, q)
  {
  }

  lemma FoundSide(sc: Scope, docs: Docs, t: string, leaf: Leaf, q: Json, xs: seq<string>)
    ensures FoundBy(sc, docs, t, leaf, q, xs) <==> FoundBy(sc, Side(SharedPlace(sc), true, docs), t, leaf, q, xs)
  {
    MatchesSide(sc, docs, sc.tenancy.ClusterFor(t), leaf, Wrapped(q, Terms(sc, t)));
  }

  // ----- searches among other requests -----

  /** A search, count or multi-search that is not bypassed. */
  predicate Searching(f: Brain, req: Request) {
    var ctx := FromFilter(Filter.Seen(f, req));
    && ctx.Some? && ctx.value.logicalIndex !in f.passthrough
    && (ctx.value.endpoint.Search? || ctx.value.endpoint.Count? || ctx.value.endpoint.MultiSearch?)
  }

  function WithoutSearches(f: Brain, run: seq<Request>): seq<Request> {
    if run == [] then []
    else (if Searching(f, run[0]) then [] else [run[0]]) + WithoutSearches(f, run[1..])
  }

  lemma MsearchSegments()
    ensures ClassifySegments(POST, ["_msearch"]) == Classified("", MultiSearch, None)
  {
  }

  lemma MsearchPath()
    ensures Classify(POST, PathOf("/_msearch")) == Classified("", MultiSearch, None)
  {
    ClusterPath("_msearch");
    assert "/" + "_msearch" == "/_msearch";
    MsearchSegments();
  }

  lemma SearchLine(p: Resolved, ctx: Ctx)
    requires ctx.endpoint.Search? || ctx.endpoint.Count? || ctx.endpoint.MultiSearch?
    requires ForwardFor(p, ctx).Upstream?
    ensures var f := ForwardFor(p, ctx).f;
            && f.verb == "POST"
            && f.path == if ctx.endpoint.MultiSearch? then "/_msearch"
                         else "/" + p.target.index + "/" + (if ctx.endpoint.Count? then "_count" else "_search")
  {
  }

  /** What a search is forwarded as asks for no document and changes none. */
  lemma SearchUnread(sc: Scope, ctx: Ctx)
    requires sc.Sound() && (ctx.endpoint.Search? || ctx.endpoint.Count? || ctx.endpoint.MultiSearch?)
    ensures var forward := Prepare(sc.tenancy.AsRouter(), ctx); forward.Upstream? ==> ReadOp(forward.f) == None
  {
    var forward := Prepare(sc.tenancy.AsRouter(), ctx);
    if forward.Upstream? {
      var p := sc.tenancy.Decide(sc.tenancy.ResolvePartition(ctx).value, ctx.logicalIndex);
      SearchLine(p, ctx);
      if ctx.endpoint.MultiSearch? {
        MsearchPath();
        AskingUnread(forward.f, Classified("", MultiSearch, None));
      } else {
        VerbPath(sc.tenancy.sharedIndex, if ctx.endpoint.Count? then "_count" else "_search");
        AskingUnread(forward.f, Classified(sc.tenancy.sharedIndex, ctx.endpoint, None));
      }
    }
  }

  lemma AskingUnread(f: Prepared, c: Classified)
    requires f.verb == "POST" && Classify(POST, PathOf(f.path)) == c
    requires c.endpoint.Search? || c.endpoint.Count? || c.endpoint.MultiSearch?
    ensures ReadOp(f) == None
  {
    ReadAs(f, POST, c);
    AskingClassified(f, c);
  }

  lemma AskingClassified(f: Prepared, c: Classified)
    requires c.endpoint.Search? || c.endpoint.Count? || c.endpoint.MultiSearch?
    ensures ReadClassified(f, POST, c) == None
  {
  }

  lemma SearchLeaves(sc: Scope, f: Brain, home: string, docs: Docs, req: Request)
    requires sc.Sound() && f.router == sc.tenancy.AsRouter() && Searching(f, req)
    ensures BrainStep(f, home, docs, req).0 == docs
  {
    var ctx := FromFilter(Filter.Seen(f, req)).value;
    HandledIs(f, req);
    PassedIs(f, home, docs, req, ctx);
    SearchUnread(sc, ctx);
  }

  /** So searches can stand anywhere in a run: it leaves the store it would leave without them. */
  lemma {:induction false} RunWithout(sc: Scope, f: Brain, home: string, docs: Docs, run: seq<Request>)
    requires sc.Sound() && f.router == sc.tenancy.AsRouter()
    ensures BrainRun(f, home, docs, run).0 == BrainRun(f, home, docs, WithoutSearches(f, run)).0
    decreases run
  {
    if run != [] {
      if Searching(f, run[0]) {
        SearchLeaves(sc, f, home, docs, run[0]);
        assert WithoutSearches(f, run) == WithoutSearches(f, run[1..]);
      } else {
        assert WithoutSearches(f, run)[1..] == WithoutSearches(f, run[1..]);
      }
      RunWithout(sc, f, home, BrainStep(f, home, docs, run[0]).0, run[1..]);
    }
  }

  /** The tenant's own store after a run. */
  function OwnAfter(sc: Scope, f: Brain, home: string, w: World, run: seq<Request>, t: string): Private {
    PrivateOf(OwnRun(sc, f, home, w, WithoutSearches(f, run)).0.privs, t)
  }

  /** After a run, searches among it, of covered requests, the store still stands for the separate
      stores. */
  lemma RunStands(sc: Scope, f: Brain, home: string, docs: Docs, w: World, run: seq<Request>)
    requires sc.Sound() && f.router == sc.tenancy.AsRouter() && Separated(sc, w.privs.Keys) && Stands(sc, docs, w)
    requires EndToEnd.CoveredRun(sc, f, home, w.privs.Keys, WithoutSearches(f, run))
    ensures var own := OwnRun(sc, f, home, w, WithoutSearches(f, run)).0;
            Stands(sc, BrainRun(f, home, docs, run).0, own) && own.privs.Keys == w.privs.Keys
  {
    RunWithout(sc, f, home, docs, run);
    BrainRunRefines(sc, f, home, docs, w, WithoutSearches(f, run));
  }

  // ----- one search -----

  lemma SearchAsked(sc: Scope, f: Brain, req: Request, ctx: Ctx, t: string, endpoint: Endpoint, q: Json)
    requires sc.Sound() && f.router == sc.tenancy.AsRouter() && Served(sc, f, req, ctx, t, endpoint)
    requires endpoint == Endpoint.Search || endpoint == Count
    requires ReadQuery(ctx.body) == Some(q)
    ensures AsksQuery(sc, Handled(f, req), t, endpoint, Wrapped(q, Terms(sc, t)))
  {
    ServedIs(sc, f, req, ctx, t, endpoint);
    SearchForwarded(sc, t, ctx);
  }

  lemma StoodSearch(sc: Scope, f: Brain, docs: Docs, w: World, req: Request, ctx: Ctx, t: string,
                    leaf: Leaf, q: Json, top: Json, xs: seq<string>)
    requires sc.Sound() && f.router == sc.tenancy.AsRouter() && Stands(sc, docs, w) && t in w.privs
    requires Served(sc, f, req, ctx, t, Endpoint.Search) && Blind(sc, t, leaf, q) && FoundBy(sc, docs, t, leaf, q, xs)
    requires Valid(top) && InnerHits(top).Some?
    requires HitsOn(sc, t, ctx.logicalIndex, InnerHits(top).value.1, xs, w.privs[t])
    ensures Lists(xs, OwnMatches(w.privs[t], leaf, q))
    ensures BrainBody(f, req, Print(top)) ==
            Print(WithHits(top, ClientHits(ctx.logicalIndex, InnerHits(top).value.1, xs, w.privs[t])))
  {
    FoundSide(sc, docs, t, leaf, q, xs);
    ServedIs(sc, f, req, ctx, t, Endpoint.Search);
    SearchShown(sc, Side(SharedPlace(sc), true, docs), w.privs, t, ctx, leaf, q, top, xs);
  }

  /** After every run of raw requests, other searches among them, a raw search: the brain has the shared index asked the
      client's query under the partition filter, and whatever order the upstream lists its
      matches in, the client is shown the matches in its own store, in that order, each once,
      as its own documents. */
  lemma BrainSearch(sc: Scope, f: Brain, home: string, docs: Docs, w: World, run: seq<Request>,
                    req: Request, ctx: Ctx, t: string, leaf: Leaf, q: Json, top: Json, xs: seq<string>)
    requires sc.Sound() && f.router == sc.tenancy.AsRouter() && Separated(sc, w.privs.Keys) && Stands(sc, docs, w)
    requires EndToEnd.CoveredRun(sc, f, home, w.privs.Keys, WithoutSearches(f, run))
    requires Served(sc, f, req, ctx, t, Endpoint.Search) && t in w.privs
    requires ReadQuery(ctx.body) == Some(q) && Blind(sc, t, leaf, q)
    requires FoundBy(sc, BrainRun(f, home, docs, run).0, t, leaf, q, xs)
    requires Valid(top) && InnerHits(top).Some?
    requires HitsOn(sc, t, ctx.logicalIndex, InnerHits(top).value.1, xs, OwnAfter(sc, f, home, w, run, t))
    ensures AsksQuery(sc, Handled(f, req), t, Endpoint.Search, Wrapped(q, Terms(sc, t)))
    ensures var own := OwnAfter(sc, f, home, w, run, t);
            && Lists(xs, OwnMatches(own, leaf, q))
            && (forall i :: 0 <= i < |xs| ==> xs[i] in own)
            && BrainBody(f, req, Print(top)) ==
               Print(WithHits(top, ClientHits(ctx.logicalIndex, InnerHits(top).value.1, xs, own)))
  {
    RunStands(sc, f, home, docs, w, run);
    SearchAsked(sc, f, req, ctx, t, Endpoint.Search, q);
    StoodSearch(sc, f, BrainRun(f, home, docs, run).0, OwnRun(sc, f, home, w, WithoutSearches(f, run)).0, req, ctx, t,
                leaf, q, top, xs);
  }

  lemma StoodCount(sc: Scope, docs: Docs, w: World, t: string, leaf: Leaf, q: Json)
    requires sc.Sound() && Stands(sc, docs, w) && t in w.privs && Blind(sc, t, leaf, q)
    ensures |Matches(docs, sc.tenancy.ClusterFor(t), sc.tenancy.sharedIndex, leaf, Wrapped(q, Terms(sc, t)))|
            == |OwnMatches(w.privs[t], leaf, q)|
  {
    MatchesSide(sc, docs, sc.tenancy.ClusterFor(t), leaf, Wrapped(q, Terms(sc, t)));
    CountRefines(sc, Side(SharedPlace(sc), true, docs), w.privs, t, leaf, q);
  }

  /** After every run, a raw count: the wrapped query matches as many documents of the shared
      index as the client's query matches in its own store. */
  lemma BrainCount(sc: Scope, f: Brain, home: string, docs: Docs, w: World, run: seq<Request>,
                   req: Request, ctx: Ctx, t: string, leaf: Leaf, q: Json)
    requires sc.Sound() && f.router == sc.tenancy.AsRouter() && Separated(sc, w.privs.Keys) && Stands(sc, docs, w)
    requires EndToEnd.CoveredRun(sc, f, home, w.privs.Keys, WithoutSearches(f, run))
    requires Served(sc, f, req, ctx, t, Count) && t in w.privs
    requires ReadQuery(ctx.body) == Some(q) && Blind(sc, t, leaf, q)
    ensures AsksQuery(sc, Handled(f, req), t, Count, Wrapped(q, Terms(sc, t)))
    ensures |Matches(BrainRun(f, home, docs, run).0, sc.tenancy.ClusterFor(t), sc.tenancy.sharedIndex, leaf,
                     Wrapped(q, Terms(sc, t)))|
            == |OwnMatches(OwnAfter(sc, f, home, w, run, t), leaf, q)|
    ensures forall text :: BrainBody(f, req, text) == text
  {
    RunStands(sc, f, home, docs, w, run);
    SearchAsked(sc, f, req, ctx, t, Count, q);
    StoodCount(sc, BrainRun(f, home, docs, run).0, OwnRun(sc, f, home, w, WithoutSearches(f, run)).0, t, leaf, q);
    CountUnshaped(sc, f, req, ctx, t);
  }

  lemma CountUnshaped(sc: Scope, f: Brain, req: Request, ctx: Ctx, t: string)
    requires f.router == sc.tenancy.AsRouter() && Served(sc, f, req, ctx, t, Count)
    ensures forall text :: BrainBody(f, req, text) == text
  {
    ServedIs(sc, f, req, ctx, t, Count);
  }

  // ----- a multi-search -----

  /** The body asks these queries, position by position, each of the shared index. */
  ghost predicate Pinned(sc: Scope, body: string, qs: seq<Json>) {
    && Asks(body, qs)
    && forall i :: 0 <= i < |qs| ==>
         ParseObject(ParseMsearch(body).value[i].0) == Ok([("index", Str(sc.tenancy.sharedIndex))])
  }

  ghost predicate AsksQueries(sc: Scope, o: Outcome, t: string, qs: seq<Json>) {
    && o.Forwarded? && o.verb == "POST" && o.path == "/_msearch" && o.cluster == Some(sc.tenancy.ClusterFor(t))
    && Pinned(sc, o.body, qs)
  }

  function WrappedAll(sc: Scope, t: string, qs: seq<Json>): (r: seq<Json>)
    ensures |r| == |qs| && forall i :: 0 <= i < |qs| ==> r[i] == Wrapped(qs[i], Terms(sc, t))
  {
    seq(|qs|, i requires 0 <= i < |qs| => Wrapped(qs[i], Terms(sc, t)))
  }

  lemma MsearchRewritten(sc: Scope, t: string, index: string, body: string, qs: seq<Json>)
    requires sc.Sound() && Asks(body, qs)
    ensures var p := sc.tenancy.Decide(t, index);
            && Demux.RewriteMsearch(p, body).Ok?
            && Pinned(sc, Demux.RewriteMsearch(p, body).value, WrappedAll(sc, t, qs))
  {
    var p := sc.tenancy.Decide(t, index);
    var items := ParseMsearch(body).value;
    SharedTerms(sc, t, index);
    forall i | 0 <= i < |items| ensures FilteredQuery(items[i].1, FilterTerms(p.transform, p.partition)).Ok? {
      FilteredQueryRead(sc, t, items[i].1);
    }
    AllFilteredRewrite(p, items);
    Demux.RewrittenMsearchRead(p, body);
    Demux.HeaderLineRead(p);
    forall i | 0 <= i < |items|
      ensures ReadQuery(ParseMsearch(Demux.RewriteMsearch(p, body).value).value[i].1) ==
              Some(Wrapped(qs[i], Terms(sc, t)))
    {
      FilteredQueryRead(sc, t, items[i].1);
    }
  }

  lemma {:induction false} AllFilteredRewrite(p: Resolved, items: seq<(string, string)>)
    requires Demux.AllFiltered(p, items)
    ensures Demux.SearchLines(p, items).Ok?
  {
    if items != [] { AllFilteredRewrite(p, items[1..]); }
  }

  lemma MsearchPrepared(sc: Scope, t: string, ctx: Ctx)
    requires ctx.endpoint == MultiSearch && sc.tenancy.ResolvePartition(ctx) == Ok(t)
    ensures Prepare(sc.tenancy.AsRouter(), ctx) ==
            OrReply(Demux.RewriteMsearch(sc.tenancy.Decide(t, ctx.logicalIndex), ctx.body),
                    sc.tenancy.Decide(t, ctx.logicalIndex), "POST", "/_msearch")
  {
  }

  lemma MsearchAsked(sc: Scope, f: Brain, req: Request, ctx: Ctx, t: string, qs: seq<Json>)
    requires sc.Sound() && f.router == sc.tenancy.AsRouter() && Served(sc, f, req, ctx, t, MultiSearch)
    requires Asks(ctx.body, qs)
    ensures AsksQueries(sc, Handled(f, req), t, WrappedAll(sc, t, qs))
  {
    ServedIs(sc, f, req, ctx, t, MultiSearch);
    MsearchPrepared(sc, t, ctx);
    MsearchRewritten(sc, t, ctx.logicalIndex, ctx.body, qs);
    ForwardAsks(sc, t, ctx.logicalIndex, Demux.RewriteMsearch(sc.tenancy.Decide(t, ctx.logicalIndex), ctx.body).value,
                WrappedAll(sc, t, qs));
  }

  lemma ForwardAsks(sc: Scope, t: string, index: string, again: string, qs: seq<Json>)
    requires Pinned(sc, again, qs)
    ensures var p := sc.tenancy.Decide(t, index);
            AsksQueries(sc, ForwardOutcome(OrReply(Ok(again), p, "POST", "/_msearch")), t, qs)
  {
  }

  /** After every run, a raw multi-search: at every position the shared index is asked the
      client's query under the partition filter, and where the upstream answers hits the client
      is shown the matches in its own store. */
  lemma BrainMsearch(sc: Scope, f: Brain, home: string, docs: Docs, w: World, run: seq<Request>,
                     req: Request, ctx: Ctx, t: string, leaf: Leaf, qs: seq<Json>,
                     top: Json, rs: seq<Json>, xss: seq<seq<string>>)
    requires sc.Sound() && f.router == sc.tenancy.AsRouter() && Separated(sc, w.privs.Keys) && Stands(sc, docs, w)
    requires EndToEnd.CoveredRun(sc, f, home, w.privs.Keys, WithoutSearches(f, run))
    requires Served(sc, f, req, ctx, t, MultiSearch) && t in w.privs && Asks(ctx.body, qs)
    requires |qs| == |rs| == |xss| && forall i :: 0 <= i < |qs| ==> Blind(sc, t, leaf, qs[i])
    requires Valid(top) && ArrayAt(top, "responses") == Some(rs)
    requires forall i :: 0 <= i < |qs| ==>
               ResponseFound(sc, BrainRun(f, home, docs, run).0, OwnAfter(sc, f, home, w, run, t),
                             t, ctx.logicalIndex, leaf, qs[i], rs[i], xss[i])
    ensures AsksQueries(sc, Handled(f, req), t, WrappedAll(sc, t, qs))
    ensures var own := OwnAfter(sc, f, home, w, run, t);
            && ListsEach(own, leaf, qs, rs, xss)
            && BrainBody(f, req, Print(top)) ==
               Print(WithArray(top, "responses", ClientResponses(ctx.logicalIndex, rs, xss, own)))
  {
    RunStands(sc, f, home, docs, w, run);
    MsearchAsked(sc, f, req, ctx, t, qs);
    StoodMsearch(sc, f, BrainRun(f, home, docs, run).0, OwnRun(sc, f, home, w, WithoutSearches(f, run)).0, req, ctx, t,
                 leaf, qs, top, rs, xss);
  }

  lemma StoodMsearch(sc: Scope, f: Brain, docs: Docs, w: World, req: Request, ctx: Ctx, t: string,
                     leaf: Leaf, qs: seq<Json>, top: Json, rs: seq<Json>, xss: seq<seq<string>>)
    requires sc.Sound() && f.router == sc.tenancy.AsRouter() && Stands(sc, docs, w) && t in w.privs
    requires Served(sc, f, req, ctx, t, MultiSearch) && Asks(ctx.body, qs)
    requires |qs| == |rs| == |xss| && forall i :: 0 <= i < |qs| ==> Blind(sc, t, leaf, qs[i])
    requires Valid(top) && ArrayAt(top, "responses") == Some(rs)
    requires forall i :: 0 <= i < |qs| ==>
               ResponseFound(sc, docs, w.privs[t], t, ctx.logicalIndex, leaf, qs[i], rs[i], xss[i])
    ensures ListsEach(w.privs[t], leaf, qs, rs, xss)
    ensures BrainBody(f, req, Print(top)) ==
            Print(WithArray(top, "responses", ClientResponses(ctx.logicalIndex, rs, xss, w.privs[t])))
  {
    forall i | 0 <= i < |qs|
      ensures ResponseFound(sc, Side(SharedPlace(sc), true, docs), w.privs[t], t, ctx.logicalIndex, leaf,
                            qs[i], rs[i], xss[i])
    {
      FoundSide(sc, docs, t, leaf, qs[i], xss[i]);
    }
    ServedIs(sc, f, req, ctx, t, MultiSearch);
    MsearchShown(sc, Side(SharedPlace(sc), true, docs), w.privs, t, ctx, leaf, qs, top, rs, xss);
  }
}
