/** Dedicated-index mode: whatever two tenants write, singly, by deletes or in bulk, the
    upstream writes it to different physical indices. */
module Dedicated {
  import opened Common
  import opened Json
  import opened Rewrite
  import opened Ndjson
  import opened Adapter
  import opened Transform
  import opened Route
  import opened Reference
  import opened Filter
  import opened Prefixed
  import Percent
  import Bulk
  import Demux
  import Wire

  function IndexIn(meta: Fields): string {
    match ScalarField(meta, "_index")
    case Some(index) => index
    case None => ""
  }

  function EntryIndices(entries: seq<BulkEntry>): set<string> {
    set i | 0 <= i < |entries| :: IndexIn(entries[i].meta)
  }

  /** The physical indices a forwarded request writes to, as the upstream reads it. */
  function Touched(f: Prepared): set<string> {
    var m := ParseMethod(f.verb);
    if m.None? then {} else TouchedBy(f.body, Classify(m.value, PathOf(f.path)))
  }

  function TouchedBy(body: string, c: Classified): set<string> {
    if c.endpoint == IngestBulk then
      var entries := ParseEntries(Lines(body));
      if entries.Ok? then EntryIndices(entries.value) else {}
    else if c.endpoint == IngestDoc || c.endpoint == DeleteById then {c.index}
    else {}
  }

  predicate Writes(ctx: Ctx) {
    ctx.endpoint == IngestDoc || ctx.endpoint == IngestBulk || (ctx.endpoint == DeleteById && ctx.verb == DELETE)
  }

  lemma SingleTouches(p: Resolved, ctx: Ctx)
    requires WriteForward(p, ctx).Upstream? && PlainIndex(p.target.index)
    ensures Touched(WriteForward(p, ctx).f) == {p.target.index}
  {
    var t := Apply(ctx.body, p.transform, p.partition).value;
    var id := if t.id.Some? then t.id else ctx.docId;
    var line := WritePath(p.target.index, id, t.routing);
    var m := if line.0 == "PUT" then PUT else POST;
    SinglePath(m, p.target.index, id, t.routing);
  }

  lemma SinglePath(m: Method, index: string, id: Option<string>, routing: Option<string>)
    requires PlainIndex(index) && (m == PUT || m == POST)
    ensures var c := Classify(m, PathOf(WritePath(index, id, routing).1));
            c.endpoint == IngestDoc && c.index == index
  {
    if id.Some? {
      DocPathRead(m, index, id.value, routing);
    } else {
      NamelessPath(m, index, if routing.Some? then "routing=" + Percent.Encode(routing.value) else "");
    }
  }

  lemma NamelessPath(m: Method, index: string, query: string)
    requires PlainIndex(index) && (m == PUT || m == POST)
    ensures var path := "/" + index + "/" + "_doc";
            && Classify(m, PathOf(path + (['?'] + query))) == Classified(index, IngestDoc, None)
            && Classify(m, PathOf(path + "")) == Classified(index, IngestDoc, None)
  {
    var path := "/" + index + "/" + "_doc";
    assert Free(path, '?');
    SplitQuery(path, query);
    Segments2(index, "_doc");
    ClassifyDoc(m, index, [index, "_doc"]);
  }

  lemma DeleteTouches(p: Resolved, ctx: Ctx)
    requires ctx.verb == DELETE && ByIdForward(p, ctx).Upstream? && PlainIndex(p.target.index)
    ensures Touched(ByIdForward(p, ctx).f) == {p.target.index}
  {
    var logical := if ctx.docId.Some? then ctx.docId.value else "";
    var mapped := PhysicalId(p.transform, p.partition, logical).value;
    DocPathRead(DELETE, p.target.index, mapped.0, mapped.1);
  }

  lemma BulkTouches(p: Resolved, body: string)
    requires ValidTransform(p.transform) && Bulk.RewriteBulk(p, body).Ok?
    ensures Touched(Prepared(p.target.cluster, "POST", "/_bulk", Bulk.RewriteBulk(p, body).value, p.headerOps, HostOf(p)))
            <= {p.target.index}
  {
    var items := ParseBulk(body).value;
    var f := Prepared(p.target.cluster, "POST", "/_bulk", Bulk.RewriteBulk(p, body).value, p.headerOps, HostOf(p));
    Bulk.RewrittenBulkRead(p, body);
    BulkPath();
    assert Touched(f) == TouchedBy(f.body, Classified("", IngestBulk, None));
    EntriesTouch(p, items);
  }

  lemma EntriesTouch(p: Resolved, items: seq<BulkItem>)
    requires Bulk.AllRewrite(p, items)
    ensures EntryIndices(Bulk.EntriesFor(p, items)) <= {p.target.index}
  {
    forall i | 0 <= i < |items| ensures IndexIn(Bulk.EntriesFor(p, items)[i].meta) == p.target.index {
      EntryIndex(p, items[i]);
    }
  }

  /** Every entry of a rewritten bulk body names the decision's index, whatever index its action
      line named. So an entry goes to the index it asked for, its own or the path's, exactly when
      that is the decision's. */
  lemma EntryKeptIff(p: Resolved, path: string, body: string, i: nat)
    requires ValidTransform(p.transform) && Bulk.RewriteBulk(p, body).Ok?
    requires ParseEntries(Lines(body)).Ok? && i < |ParseEntries(Lines(body)).value|
    ensures ParseEntries(Lines(Bulk.RewriteBulk(p, body).value)).Ok?
    ensures var (was, now) := (ParseEntries(Lines(body)).value,
                               ParseEntries(Lines(Bulk.RewriteBulk(p, body).value)).value);
            && |now| == |was| && IndexIn(now[i].meta) == p.target.index
            && (Demux.IndexOr(was[i].meta, path) == Some(IndexIn(now[i].meta))
                <==> Demux.IndexOr(was[i].meta, path) == Some(p.target.index))
  {
    Bulk.RewrittenBulkRead(p, body);
    ItemsPerEntry(ParseEntries(Lines(body)).value);
    EntryIndex(p, ParseBulk(body).value[i]);
  }

  lemma {:induction false} ItemsPerEntry(entries: seq<BulkEntry>)
    ensures Items(entries).Ok? ==> |Items(entries).value| == |entries|
  {
    if entries != [] { ItemsPerEntry(entries[1..]); }
  }

  /** With a dedicated cluster the decision's index is the one in the path. So a cluster-level
      bulk or mget, whose path names none, has every entry rewritten to the empty index: an entry
      that names an index never reaches it. */
  lemma ClusterLevelIndexLost(tenancy: Tenancy, ctx: Ctx, t: string, i: nat)
    requires tenancy.isolation == DedicatedCluster && ctx.logicalIndex == ""
    requires Bulk.RewriteBulk(tenancy.Decide(t, ""), ctx.body).Ok?
    requires ParseEntries(Lines(ctx.body)).Ok? && i < |ParseEntries(Lines(ctx.body)).value|
    requires ScalarField(ParseEntries(Lines(ctx.body)).value[i].meta, "_index") != Some("")
    ensures var forwarded := Bulk.RewriteBulk(tenancy.Decide(t, ""), ctx.body).value;
            && ParseEntries(Lines(forwarded)).Ok? && i < |ParseEntries(Lines(forwarded)).value|
            && IndexIn(ParseEntries(Lines(forwarded)).value[i].meta) == ""
            && Demux.IndexOr(ParseEntries(Lines(ctx.body)).value[i].meta, "") != Some("")
  {
    EntryKeptIff(tenancy.Decide(t, ""), "", ctx.body, i);
  }

  lemma EntryIndex(p: Resolved, item: BulkItem)
    requires Bulk.RewriteItem(p, item).Ok?
    ensures IndexIn(Bulk.EntryFor(p, item).meta) == p.target.index
  {
  }

  lemma BulkPath()
    ensures Classify(POST, PathOf("/_bulk")) == Classified("", IngestBulk, None)
  {
    Wire.ClusterPath("_bulk");
    Wire.ClassifyCluster("_bulk");
    assert "/_bulk" == "/" + "_bulk";
  }

  /** A forwarded write of a tenant touches no index but the tenant's own: a bulk request whatever
      the index is called, any other when its name is plain. */
  lemma TouchesOwnIndex(tenancy: Tenancy, ctx: Ctx, t: string)
    requires tenancy.isolation == DedicatedIndex && Writes(ctx) && tenancy.ResolvePartition(ctx) == Ok(t)
    requires ctx.endpoint == IngestBulk || PlainIndex(tenancy.IndexFor(t))
    requires Prepare(tenancy.AsRouter(), ctx).Upstream?
    ensures Touched(Prepare(tenancy.AsRouter(), ctx).f) <= {tenancy.IndexFor(t)}
  {
    var p := tenancy.Decide(t, ctx.logicalIndex);
    if ctx.endpoint == IngestDoc {
      SingleTouches(p, ctx);
    } else if ctx.endpoint == DeleteById {
      DeleteTouches(p, ctx);
    } else {
      BulkTouches(p, ctx.body);
    }
  }

  /** The writes of different tenants, of every kind, never touch one physical index, when the
      index template mentions the partition and single writes go to plain index names. */
  lemma TenantsTouchApart(tenancy: Tenancy, a: Ctx, b: Ctx, t: string, u: string)
    requires tenancy.isolation == DedicatedIndex && Mentions(tenancy.indexTemplate) && t != u
    requires Writes(a) && tenancy.ResolvePartition(a) == Ok(t)
    requires Writes(b) && tenancy.ResolvePartition(b) == Ok(u)
    requires a.endpoint == IngestBulk || PlainIndex(tenancy.IndexFor(t))
    requires b.endpoint == IngestBulk || PlainIndex(tenancy.IndexFor(u))
    requires Prepare(tenancy.AsRouter(), a).Upstream? && Prepare(tenancy.AsRouter(), b).Upstream?
    ensures Touched(Prepare(tenancy.AsRouter(), a).f) !! Touched(Prepare(tenancy.AsRouter(), b).f)
  {
    IndicesDifferIff(tenancy.indexTemplate);
    TouchesOwnIndex(tenancy, a, t);
    TouchesOwnIndex(tenancy, b, u);
  }

  // ----- index names that are not plain -----

  /** An index read from a path is none, or plain. */
  lemma IndexReadIsPlain(m: Method, whole: string)
    ensures var index := Classify(m, PathOf(whole)).index; index == "" || PlainIndex(index)
  {
    var path := PathOf(whole);
    QuerySplit(whole);
    SegmentsClean(path, '?');
    SegmentsNonEmpty(path);
    ClassifiedIndex(m, Segments(path));
  }

  lemma {:induction false} NonEmptyParts(parts: seq<string>)
    ensures forall i :: 0 <= i < |NonEmpty(parts)| ==> NonEmpty(parts)[i] != ""
  {
    if parts != [] { NonEmptyParts(parts[1..]); }
  }

  lemma SegmentsNonEmpty(path: string)
    ensures forall i :: 0 <= i < |Segments(path)| ==> Segments(path)[i] != ""
  {
    NonEmptyParts(Split(TrimRight(TrimLeft(path, '/'), '/'), '/'));
  }

  lemma DocFirst(m: Method, segs: seq<string>)
    requires segs != [] && segs[0] == "_doc"
    ensures ClassifySegments(m, segs).index == "_doc"
  {
  }

  lemma NoIndexSegments(rest: string)
    requires rest == "" || rest[0] == '/'
    ensures var segs := Segments("/" + ("/" + "_doc" + rest)); segs != [] && segs[0] == "_doc"
  {
    var inner := "/" + "_doc" + rest;
    assert ("/" + inner)[1..] == inner;
    assert TrimLeft("/" + inner, '/') == TrimLeft(inner, '/');
    if rest == "" {
      assert inner == "/" + "_doc";
      Segments1("_doc");
    } else {
      PrefixedSegments("_doc", rest);
    }
  }

  lemma NoIndexPath(m: Method, id: Option<string>, routing: Option<string>)
    ensures Classify(m, PathOf(WritePath("", id, routing).1)).index != ""
  {
    var rest := if id.Some? then "/" + Percent.Encode(id.value) else "";
    if id.Some? { EncodedFree(id.value); }
    var path := "/" + ("/" + "_doc" + rest);
    NoIndexText(id, routing, rest);
    assert Free("_doc", '?') && Free(rest, '?') && Free(path, '?');
    SplitQuery(path, if routing.Some? then "routing=" + Percent.Encode(routing.value) else "");
    NoIndexSegments(rest);
    DocFirst(m, Segments(path));
  }

  lemma NoIndexText(id: Option<string>, routing: Option<string>, rest: string)
    requires rest == if id.Some? then "/" + Percent.Encode(id.value) else ""
    ensures WritePath("", id, routing).1 == "/" + ("/" + "_doc" + rest) + RoutingQuery(routing)
  {
    if id.Some? {
      assert SegmentPath("", Percent.Encode(id.value)) == "/" + ("/" + "_doc" + rest);
    } else {
      assert "/" + "" + "/" + "_doc" == "/" + ("/" + "_doc" + rest);
    }
  }

  /** A single write reaches the index it is meant for exactly when that index's name is plain:
      one non-empty, non-administrative path segment. */
  lemma SingleWriteReachesIff(m: Method, index: string, id: Option<string>, routing: Option<string>)
    requires m == PUT || m == POST
    ensures Classify(m, PathOf(WritePath(index, id, routing).1)).index == index <==> PlainIndex(index)
  {
    if PlainIndex(index) {
      SinglePath(m, index, id, routing);
    } else if index == "" {
      NoIndexPath(m, id, routing);
    } else {
      IndexReadIsPlain(m, WritePath(index, id, routing).1);
    }
  }

  /** A put of a tenant named in the header. */
  function PutFrom(tenancy: Tenancy, t: string): Ctx {
    Ctx(PUT, IngestDoc, "notes", Some("1"), [(tenancy.partitionHeader, t)], ANONYMOUS, "{}")
  }

  lemma WholeTemplate(p: string)
    ensures Substitute(PLACEHOLDER, p) == p && Mentions(PLACEHOLDER)
  {
    assert PLACEHOLDER[|PLACEHOLDER|..] == "";
    assert p + "" == p;
  }

  lemma PutForwards(tenancy: Tenancy, t: string)
    requires tenancy.isolation == DedicatedIndex && tenancy.indexTemplate == PLACEHOLDER
    requires !tenancy.fromPrincipal && tenancy.AdmitWrite(t)
    ensures tenancy.ResolvePartition(PutFrom(tenancy, t)) == Ok(t)
    ensures var forward := Prepare(tenancy.AsRouter(), PutFrom(tenancy, t));
            forward.Upstream? && forward.f.verb == "PUT" && forward.f.path == SegmentPath(t, Percent.Encode("1"))
  {
    WholeTemplate(t);
    ParsePrint(Obj([]));
    PathAlone(SegmentPath(t, Percent.Encode("1")));
  }

  lemma PathAlone(path: string)
    ensures path + "" == path
  {
  }

  lemma TouchesOne(f: Prepared, index: string)
    requires f.verb == "PUT" && Classify(PUT, PathOf(f.path)).endpoint == IngestDoc
    requires Classify(PUT, PathOf(f.path)).index == index
    ensures Touched(f) == {index}
  {
  }

  lemma Nested(a: string, d: string, b: string, segment: string)
    ensures "/" + (a + ("/" + d + ("/" + b))) + "/" + d + "/" + segment
            == "/" + a + ("/" + d + ("/" + b + ("/" + d + "/" + segment)))
  {
  }

  /** The tenant name that reads as a document path of index `a`. */
  function PathLike(a: string, b: string): string {
    a + ("/" + "_doc" + ("/" + b))
  }

  lemma PathLikeReads(a: string, b: string, segment: string)
    requires PlainIndex(a) && Plain(b) && Plain(segment)
    ensures Classify(PUT, PathOf(SegmentPath(PathLike(a, b), segment))) == Classified(a, IngestDoc, Some(b))
  {
    var tail := "/" + "_doc" + "/" + segment;
    var path := SegmentPath(PathLike(a, b), segment);
    Nested(a, "_doc", b, segment);
    assert Free("_doc", '?') && Free(tail, '?') && Free(path, '?');
    SplitQuery(path, "");
    PathAlone(path);
    PrefixedSegments(b, tail);
    PrefixedSegments("_doc", "/" + b + tail);
    PrefixedSegments(a, "/" + "_doc" + ("/" + b + tail));
    DocScoped(a, b, Segments(tail));
  }

  lemma DocScoped(a: string, b: string, rest: seq<string>)
    requires PlainIndex(a)
    ensures ClassifySegments(PUT, [a] + (["_doc"] + ([b] + rest))) == Classified(a, IngestDoc, Some(b))
  {
    var segs := [a] + (["_doc"] + ([b] + rest));
    assert segs[0] == a && segs[1] == "_doc" && segs[2..] == [b] + rest;
    assert "_doc" != "scroll";
  }

  /** A put of the tenant is forwarded, and goes to this one index. */
  predicate PutsInto(tenancy: Tenancy, t: string, index: string) {
    var forward := Prepare(tenancy.AsRouter(), PutFrom(tenancy, t));
    forward.Upstream? && Touched(forward.f) == {index}
  }

  lemma PathLikePuts(tenancy: Tenancy, a: string, b: string)
    requires tenancy.isolation == DedicatedIndex && tenancy.indexTemplate == PLACEHOLDER
    requires !tenancy.fromPrincipal && tenancy.AdmitWrite(PathLike(a, b)) && PlainIndex(a) && Plain(b)
    ensures PutsInto(tenancy, PathLike(a, b), a)
  {
    EncodedFree("1");
    PutForwards(tenancy, PathLike(a, b));
    PathLikeReads(a, b, Percent.Encode("1"));
    TouchesOne(Prepare(tenancy.AsRouter(), PutFrom(tenancy, PathLike(a, b))).f, a);
  }

  lemma PlainPuts(tenancy: Tenancy, a: string)
    requires tenancy.isolation == DedicatedIndex && tenancy.indexTemplate == PLACEHOLDER
    requires !tenancy.fromPrincipal && tenancy.AdmitWrite(a) && PlainIndex(a)
    ensures PutsInto(tenancy, a, a)
  {
    EncodedFree("1");
    PutForwards(tenancy, a);
    OwnPath(a, Percent.Encode("1"));
    TouchesOne(Prepare(tenancy.AsRouter(), PutFrom(tenancy, a)).f, a);
  }

  /** Without plain names tenants do meet: under the template that is the partition itself, a
      single write of tenant `a/_doc/b` and one of tenant `a` both go to index `a`, the first as
      its document `b`, for every plain `a` and `b`. */
  lemma SlashTenantsCollide(tenancy: Tenancy, a: string, b: string)
    requires tenancy.isolation == DedicatedIndex && tenancy.indexTemplate == PLACEHOLDER
    requires !tenancy.fromPrincipal && tenancy.AdmitWrite(PathLike(a, b)) && tenancy.AdmitWrite(a)
    requires PlainIndex(a) && Plain(b)
    ensures Mentions(tenancy.indexTemplate) && PathLike(a, b) != a
    ensures PutsInto(tenancy, PathLike(a, b), a) && PutsInto(tenancy, a, a)
  {
    WholeTemplate(a);
    assert |PathLike(a, b)| > |a|;
    PathLikePuts(tenancy, a, b);
    PlainPuts(tenancy, a);
  }

  lemma OwnPath(index: string, segment: string)
    requires PlainIndex(index) && Plain(segment)
    ensures var c := Classify(PUT, PathOf(SegmentPath(index, segment)));
            c.endpoint == IngestDoc && c.index == index
  {
    SegmentPathFree(index, segment);
    SplitQuery(SegmentPath(index, segment), "");
    PathAlone(SegmentPath(index, segment));
    ClassifySegmentPath(PUT, index, segment);
  }
}
