/** Whole runs in the dedicated modes. A tenant's place is its index or, with a dedicated cluster,
    its cluster; tenants whose places are apart each see what they would see alone. */
module DedicatedRuns {
  import opened Common
  import opened Json
  import opened Ndjson
  import opened Adapter
  import opened Transform
  import opened Route
  import opened Reference
  import opened Shared
  import opened Wire
  import opened Runs
  import opened Sides
  import opened Dedicated
  import opened DedicatedReads
  import Engine
  import Bulk
  import Demux

  function PlaceOf(tenancy: Tenancy, t: string): Place {
    if tenancy.isolation == DedicatedIndex then OfIndex(tenancy.IndexFor(t)) else OfCluster(tenancy.ClusterFor(t))
  }

  /** Paths lead to the tenant's place: with an index of its own, when its name is plain. */
  predicate Reached(tenancy: Tenancy, t: string) {
    tenancy.isolation == DedicatedIndex ==> PlainIndex(tenancy.IndexFor(t))
  }

  /** No document is in both places. */
  ghost predicate Apart(p: Place, q: Place) {
    forall k :: !(On(p, k) && On(q, k))
  }

  /** Places are apart exactly when the tenants are different or, with dedicated clusters, when
      their clusters are. */
  lemma PlacesApartIff(tenancy: Tenancy, t: string, u: string)
    requires OwnPlaces(tenancy) && (tenancy.isolation == DedicatedIndex ==> Mentions(tenancy.indexTemplate))
    ensures Apart(PlaceOf(tenancy, t), PlaceOf(tenancy, u)) <==>
            if tenancy.isolation == DedicatedIndex then t != u else tenancy.ClusterFor(t) != tenancy.ClusterFor(u)
  {
    IndicesDifferIff(tenancy.indexTemplate);
    var k := Key(tenancy.ClusterFor(t), tenancy.IndexFor(t), "");
    assert On(PlaceOf(tenancy, t), k);
  }

  // ----- what a forwarded request touches -----

  lemma {:induction false} StepsOnCluster(cluster: string, home: string, es: seq<BulkEntry>)
    requires StepsFor(cluster, home, es).Some?
    ensures KeysOn(OfCluster(cluster), true, Engine.Batch(StepsFor(cluster, home, es).value))
  {
    if es != [] { StepsOnCluster(cluster, home, es[1..]); }
  }

  /** Whatever is asked is asked of the cluster it is forwarded to. */
  lemma OnCluster(f: Prepared, op: Engine.Op<Key>)
    requires ReadOp(f) == Some(op)
    ensures KeysOn(OfCluster(f.cluster), true, op)
  {
    var m := ParseMethod(f.verb).value;
    ClassifiedOnCluster(f, m, Classify(m, PathOf(f.path)), op);
  }

  lemma ClassifiedOnCluster(f: Prepared, m: Method, c: Classified, op: Engine.Op<Key>)
    requires ReadClassified(f, m, c) == Some(op)
    ensures KeysOn(OfCluster(f.cluster), true, op)
  {
    if c.endpoint.IngestBulk? { StepsOnCluster(f.cluster, c.index, ParseEntries(Lines(f.body)).value); }
  }

  lemma {:induction false} StepsOnIndex(cluster: string, index: string, es: seq<BulkEntry>)
    requires StepsFor(cluster, "", es).Some?
    requires forall i :: 0 <= i < |es| ==> IndexIn(es[i].meta) == index
    ensures KeysOn(OfIndex(index), true, Engine.Batch(StepsFor(cluster, "", es).value))
  {
    if es != [] { StepsOnIndex(cluster, index, es[1..]); }
  }

  /** A request for one document asks for a document of the index its path names. */
  lemma DocOnIndex(f: Prepared, m: Method, index: string, op: Engine.Op<Key>)
    requires f.verb == MethodText(m) && ReadOp(f) == Some(op)
    requires var c := Classify(m, PathOf(f.path));
             c.index == index && !c.endpoint.IngestBulk? && !c.endpoint.MultiGet?
    ensures KeysOn(OfIndex(index), true, op)
  {
    ReadAs(f, m, Classify(m, PathOf(f.path)));
    ClassifiedOnIndex(f, m, Classify(m, PathOf(f.path)), op);
  }

  lemma ClassifiedOnIndex(f: Prepared, m: Method, c: Classified, op: Engine.Op<Key>)
    requires !c.endpoint.IngestBulk? && !c.endpoint.MultiGet? && ReadClassified(f, m, c) == Some(op)
    ensures KeysOn(OfIndex(c.index), true, op)
  {
  }

  lemma WriteOnIndex(p: Resolved, ctx: Ctx, op: Engine.Op<Key>)
    requires WriteForward(p, ctx).Upstream? && PlainIndex(p.target.index) && ReadOp(WriteForward(p, ctx).f) == Some(op)
    ensures KeysOn(OfIndex(p.target.index), true, op)
  {
    var t := Apply(ctx.body, p.transform, p.partition).value;
    var id := if t.id.Some? then t.id else ctx.docId;
    var line := WritePath(p.target.index, id, t.routing);
    var m := if line.0 == "PUT" then PUT else POST;
    SinglePath(m, p.target.index, id, t.routing);
    DocOnIndex(WriteForward(p, ctx).f, m, p.target.index, op);
  }

  lemma ByIdOnIndex(p: Resolved, ctx: Ctx, op: Engine.Op<Key>)
    requires ByIdForward(p, ctx).Upstream? && PlainIndex(p.target.index) && ReadOp(ByIdForward(p, ctx).f) == Some(op)
    requires ctx.verb == GET || ctx.verb == HEAD || ctx.verb == DELETE
    ensures KeysOn(OfIndex(p.target.index), true, op)
  {
    var logical := if ctx.docId.Some? then ctx.docId.value else "";
    var mapped := PhysicalId(p.transform, p.partition, logical).value;
    DocPathRead(ctx.verb, p.target.index, mapped.0, mapped.1);
    DocOnIndex(ByIdForward(p, ctx).f, ctx.verb, p.target.index, op);
  }

  lemma BulkOnIndex(p: Resolved, ctx: Ctx, op: Engine.Op<Key>)
    requires ValidTransform(p.transform) && ctx.endpoint == IngestBulk
    requires ForwardFor(p, ctx).Upstream? && ReadOp(ForwardFor(p, ctx).f) == Some(op)
    ensures KeysOn(OfIndex(p.target.index), true, op)
  {
    var f := ForwardFor(p, ctx).f;
    var items := ParseBulk(ctx.body).value;
    Bulk.RewrittenBulkRead(p, ctx.body);
    BulkPath();
    forall i | 0 <= i < |items| ensures IndexIn(Bulk.EntriesFor(p, items)[i].meta) == p.target.index {
      EntryIndex(p, items[i]);
    }
    StepsOnIndex(f.cluster, p.target.index, Bulk.EntriesFor(p, items));
  }

  /** What a tenant's request asks of the store is in the tenant's place. */
  lemma StaysHome(tenancy: Tenancy, ctx: Ctx, t: string, op: Engine.Op<Key>)
    requires OwnPlaces(tenancy) && Covered(ctx) && tenancy.ResolvePartition(ctx) == Ok(t) && Reached(tenancy, t)
    requires Prepare(tenancy.AsRouter(), ctx).Upstream? && ReadOp(Prepare(tenancy.AsRouter(), ctx).f) == Some(op)
    ensures KeysOn(PlaceOf(tenancy, t), true, op)
  {
    var p := tenancy.Decide(t, ctx.logicalIndex);
    if tenancy.isolation == DedicatedCluster {
      OnCluster(Prepare(tenancy.AsRouter(), ctx).f, op);
    } else if ctx.endpoint.MultiGet? {
      Demux.RewrittenMgetRead(p, "", ctx.body);
      MgetAsks(tenancy, ctx, t);
    } else {
      ForwardOnIndex(p, ctx, op);
    }
  }

  lemma ForwardOnIndex(p: Resolved, ctx: Ctx, op: Engine.Op<Key>)
    requires ValidTransform(p.transform) && PlainIndex(p.target.index) && Covered(ctx) && !ctx.endpoint.MultiGet?
    requires ForwardFor(p, ctx).Upstream? && ReadOp(ForwardFor(p, ctx).f) == Some(op)
    ensures KeysOn(OfIndex(p.target.index), true, op)
  {
    match ctx.endpoint
    case IngestDoc => WriteOnIndex(p, ctx, op);
    case IngestBulk => BulkOnIndex(p, ctx, op);
    case _ => ByIdOnIndex(p, ctx, op);
  }

  // ----- one step -----

  /** The step is the tenant's step on its own place, and leaves every other document as it was. */
  lemma StepAtHome(tenancy: Tenancy, docs: Docs, ctx: Ctx, t: string)
    requires OwnPlaces(tenancy) && Covered(ctx) && tenancy.ResolvePartition(ctx) == Ok(t) && Reached(tenancy, t)
    ensures var all := SharedStep(tenancy.AsRouter(), docs, ctx);
            var part := SharedStep(tenancy.AsRouter(), Side(PlaceOf(tenancy, t), true, docs), ctx);
            && all.1 == part.1 && Side(PlaceOf(tenancy, t), true, all.0) == part.0
            && Side(PlaceOf(tenancy, t), false, all.0) == Side(PlaceOf(tenancy, t), false, docs)
  {
    var forward := Prepare(tenancy.AsRouter(), ctx);
    if forward.Upstream? && ReadOp(forward.f).Some? {
      StaysHome(tenancy, ctx, t, ReadOp(forward.f).value);
      ExecLocal(PlaceOf(tenancy, t), true, docs, ReadOp(forward.f).value);
    }
  }

  /** What is outside one place determines what is in a place apart from it. */
  lemma InsideOutside(p: Place, q: Place, docs: Docs, others: Docs)
    requires Apart(p, q) && Side(q, false, docs) == Side(q, false, others)
    ensures Side(p, true, docs) == Side(p, true, others)
  {
    forall k ensures k in Side(p, true, docs) <==> k in Side(p, true, others)
            ensures k in Side(p, true, docs) ==> docs[k] == others[k]
    {
      assert !(On(p, k) && On(q, k));
      assert k in Side(q, false, docs) <==> k in Side(q, false, others);
      if On(p, k) && k in docs { assert Side(q, false, docs)[k] == Side(q, false, others)[k]; }
    }
  }

  lemma Unresolved(tenancy: Tenancy, docs: Docs, ctx: Ctx)
    requires tenancy.ResolvePartition(ctx).Err?
    ensures SharedStep(tenancy.AsRouter(), docs, ctx).0 == docs
  {
  }

  // ----- whole runs -----

  predicate IsOf(tenancy: Tenancy, t: string, ctx: Ctx) {
    tenancy.ResolvePartition(ctx) == Ok(t)
  }

  /** The tenant's own requests of a run, and what it is shown. */
  function Mine(tenancy: Tenancy, t: string, run: seq<Ctx>): seq<Ctx> {
    if run == [] then []
    else (if IsOf(tenancy, t, run[0]) then [run[0]] else []) + Mine(tenancy, t, run[1..])
  }

  function ShownTo(tenancy: Tenancy, t: string, run: seq<Ctx>, shown: seq<Seen>): seq<Seen>
    requires |shown| == |run|
  {
    if run == [] then []
    else (if IsOf(tenancy, t, run[0]) then [shown[0]] else []) + ShownTo(tenancy, t, run[1..], shown[1..])
  }

  /** A request of the tenant, of a tenant whose place is apart, or of none. */
  ghost predicate Beside(tenancy: Tenancy, t: string, ctx: Ctx) {
    match tenancy.ResolvePartition(ctx)
    case Err(_) => true
    case Ok(u) =>
      Covered(ctx) && Reached(tenancy, u) && (u != t ==> Apart(PlaceOf(tenancy, t), PlaceOf(tenancy, u)))
  }

  /** A request of anyone else leaves the tenant's place as it was. */
  lemma OthersStep(tenancy: Tenancy, t: string, docs: Docs, ctx: Ctx)
    requires OwnPlaces(tenancy) && Beside(tenancy, t, ctx) && !IsOf(tenancy, t, ctx)
    ensures Side(PlaceOf(tenancy, t), true, SharedStep(tenancy.AsRouter(), docs, ctx).0)
            == Side(PlaceOf(tenancy, t), true, docs)
  {
    match tenancy.ResolvePartition(ctx)
    case Err(_) => Unresolved(tenancy, docs, ctx);
    case Ok(u) =>
      StepAtHome(tenancy, docs, ctx, u);
      InsideOutside(PlaceOf(tenancy, t), PlaceOf(tenancy, u), SharedStep(tenancy.AsRouter(), docs, ctx).0, docs);
  }

  lemma SeenEach(router: Router, docs: Docs, run: seq<Ctx>)
    ensures |SharedRun(router, docs, run).1| == |run|
    decreases run
  {
    if run != [] { SeenEach(router, SharedStep(router, docs, run[0]).0, run[1..]); }
  }

  /** The tenant's part of a run: its documents and what it is shown are those of its own requests
      alone, on its own documents alone. */
  ghost predicate AsIfAlone(tenancy: Tenancy, t: string, docs: Docs, run: seq<Ctx>) {
    var all := SharedRun(tenancy.AsRouter(), docs, run);
    var alone := SharedRun(tenancy.AsRouter(), Side(PlaceOf(tenancy, t), true, docs), Mine(tenancy, t, run));
    && |all.1| == |run|
    && Side(PlaceOf(tenancy, t), true, all.0) == alone.0 && ShownTo(tenancy, t, run, all.1) == alone.1
  }

  lemma AloneCons(tenancy: Tenancy, t: string, docs: Docs, run: seq<Ctx>)
    requires OwnPlaces(tenancy) && run != [] && Beside(tenancy, t, run[0])
    requires AsIfAlone(tenancy, t, SharedStep(tenancy.AsRouter(), docs, run[0]).0, run[1..])
    ensures AsIfAlone(tenancy, t, docs, run)
  {
    var router := tenancy.AsRouter();
    var first := SharedStep(router, docs, run[0]);
    SeenEach(router, docs, run);
    assert SharedRun(router, docs, run).1[1..] == SharedRun(router, first.0, run[1..]).1;
    if IsOf(tenancy, t, run[0]) {
      StepAtHome(tenancy, docs, run[0], t);
      assert Mine(tenancy, t, run)[1..] == Mine(tenancy, t, run[1..]);
    } else {
      OthersStep(tenancy, t, docs, run[0]);
      assert Mine(tenancy, t, run) == Mine(tenancy, t, run[1..]);
    }
  }

  /** In the dedicated modes, over every run of single writes, deletes, gets, multi-gets and bulk
      requests of tenants whose places are apart, in any store and any interleaving, each tenant
      is shown exactly what it would be shown had the others never been there. */
  lemma {:induction false} AloneInEveryRun(tenancy: Tenancy, t: string, docs: Docs, run: seq<Ctx>)
    requires OwnPlaces(tenancy) && forall i :: 0 <= i < |run| ==> Beside(tenancy, t, run[i])
    ensures AsIfAlone(tenancy, t, docs, run)
    decreases run
  {
    if run != [] {
      assert forall i :: 0 <= i < |run[1..]| ==> run[1..][i] == run[i + 1];
      AloneInEveryRun(tenancy, t, SharedStep(tenancy.AsRouter(), docs, run[0]).0, run[1..]);
      AloneCons(tenancy, t, docs, run);
    }
  }

  // ----- one cluster for two tenants -----

  /** With dedicated clusters, two tenants sent to one cluster read each other: a get or multi-get
      shows both the same, in every store. */
  lemma ClusterMatesReadAlike(tenancy: Tenancy, docs: Docs, a: Ctx, b: Ctx, t: string, u: string)
    requires tenancy.isolation == DedicatedCluster && AllValid(docs) && tenancy.ClusterFor(t) == tenancy.ClusterFor(u)
    requires IsOf(tenancy, t, a) && IsOf(tenancy, u, b) && b == a.(headers := b.headers, principal := b.principal)
    requires if a.endpoint == GetById
             then a.verb == GET && a.docId.Some? && a.docId.value != "" && PlainIndex(a.logicalIndex)
             else a.endpoint == MultiGet && ParseMget(a.body).Ok?
    ensures SharedStep(tenancy.AsRouter(), docs, a) == SharedStep(tenancy.AsRouter(), docs, b)
  {
    if a.endpoint == GetById {
      GetShows(tenancy, docs, a, t, a.docId.value);
      GetShows(tenancy, docs, b, u, a.docId.value);
    } else {
      MgetShows(tenancy, docs, a, t);
      MgetShows(tenancy, docs, b, u);
      var xs := ParseMget(a.body).value;
      assert FoundAll(tenancy, docs, t, a.logicalIndex, xs) == FoundAll(tenancy, docs, u, a.logicalIndex, xs);
    }
  }
}
