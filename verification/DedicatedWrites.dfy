/** Writes in the dedicated modes: the client's own documents are written, replaced and deleted
    under its own ids in its own index, and are read back from there. */
module DedicatedWrites {
  import opened Common
  import opened Json
  import opened Rewrite
  import opened Ndjson
  import opened Adapter
  import opened Transform
  import opened Route
  import opened Reference
  import opened Shared
  import opened Wire
  import opened Replies
  import opened Runs
  import opened Raw
  import opened Dedicated
  import opened DedicatedReads
  import opened Configured
  import Engine
  import Bulk
  import Demux
  import Percent

  /** The tenant's request is resolved, and not held. */
  predicate Open(tenancy: Tenancy, ctx: Ctx, t: string) {
    OwnPlaces(tenancy) && tenancy.ResolvePartition(ctx) == Ok(t) && tenancy.migration != Some((t, Cutover))
  }

  // ----- one document -----

  /** A write of one document is forwarded with the client's own body, to the path of its id or, for
      an id the engine is to give, of none; a body that is no object is refused. */
  lemma WriteForwardedAsIs(tenancy: Tenancy, ctx: Ctx, t: string)
    requires Open(tenancy, ctx, t) && ctx.endpoint == IngestDoc
    ensures var forward := Prepare(tenancy.AsRouter(), ctx);
            if ParseObject(ctx.body).Err? then forward == Immediate(ErrorReply(400, "body_rewrite_failed"))
            else
              && forward.Upstream? && forward.f.body == ctx.body
              && forward.f.path == "/" + IndexOf(tenancy, t, ctx.logicalIndex) + "/_doc"
                                   + (if ctx.docId.Some? then "/" + Percent.Encode(ctx.docId.value) else "")
              && forward.f.verb == if ctx.docId.Some? then "PUT" else "POST"
  {
    var index := IndexOf(tenancy, t, ctx.logicalIndex);
    NoQuery("/" + index + "/" + "_doc");
    Spelled(index, if ctx.docId.Some? then Percent.Encode(ctx.docId.value) else "");
    if ctx.docId.Some? { NoQuery(SegmentPath(index, Percent.Encode(ctx.docId.value))); }
  }

  lemma NoQuery(path: string)
    ensures path + RoutingQuery(None) == path
  {
  }

  lemma Spelled(index: string, segment: string)
    ensures "/" + index + "/" + "_doc" == "/" + index + "/_doc" + ""
    ensures SegmentPath(index, segment) == "/" + index + "/_doc" + ("/" + segment)
  {
  }

  /** A put writes the client's document under its own id in its own index exactly when that index's
      name is plain. */
  lemma PutAsksIff(tenancy: Tenancy, ctx: Ctx, t: string, x: string)
    requires Open(tenancy, ctx, t) && ctx.endpoint == IngestDoc && ctx.docId == Some(x) && x != ""
    requires ParseObject(ctx.body).Ok?
    ensures var forward := Prepare(tenancy.AsRouter(), ctx);
            && forward.Upstream?
            && (ReadOp(forward.f) == Some(Engine.Write(StoredAt(tenancy, t, ctx.logicalIndex, x),
                                                       Obj(ParseObject(ctx.body).value)))
                <==> PlainIndex(IndexOf(tenancy, t, ctx.logicalIndex)))
  {
    var index := IndexOf(tenancy, t, ctx.logicalIndex);
    var f := WriteForward(tenancy.Decide(t, ctx.logicalIndex), ctx).f;
    PutLine(tenancy, ctx, t, x);
    if PlainIndex(index) {
      ReadDoc(f, PUT, index, x, None);
    } else {
      WriteStrays(f, PUT, index, x);
    }
  }

  lemma PutLine(tenancy: Tenancy, ctx: Ctx, t: string, x: string)
    requires Open(tenancy, ctx, t) && ctx.endpoint == IngestDoc && ctx.docId == Some(x) && ParseObject(ctx.body).Ok?
    ensures var f := WriteForward(tenancy.Decide(t, ctx.logicalIndex), ctx);
            && f.Upstream? && Prepare(tenancy.AsRouter(), ctx) == f
            && f.f.verb == MethodText(PUT) && f.f.path == DocPath(IndexOf(tenancy, t, ctx.logicalIndex), x, None)
            && f.f.body == ctx.body && f.f.cluster == tenancy.ClusterFor(t)
  {
  }

  /** A delete removes the document of its id likewise. */
  lemma DeleteAsksIff(tenancy: Tenancy, ctx: Ctx, t: string, x: string)
    requires Open(tenancy, ctx, t) && ctx.endpoint == DeleteById && ctx.verb == DELETE
    requires ctx.docId == Some(x) && x != ""
    ensures var forward := Prepare(tenancy.AsRouter(), ctx);
            && forward.Upstream?
            && (ReadOp(forward.f) == Some(Engine.Erase(StoredAt(tenancy, t, ctx.logicalIndex, x)))
                <==> PlainIndex(IndexOf(tenancy, t, ctx.logicalIndex)))
  {
    var index := IndexOf(tenancy, t, ctx.logicalIndex);
    var f := ByIdForward(tenancy.Decide(t, ctx.logicalIndex), ctx).f;
    if PlainIndex(index) {
      ReadDoc(f, DELETE, index, x, None);
    } else {
      WriteStrays(f, DELETE, index, x);
    }
  }

  lemma WrittenIndex(f: Prepared, m: Method, c: Classified, op: Engine.Op<Key>)
    requires ReadClassified(f, m, c) == Some(op) && (op.Write? || op.Erase?)
    ensures op.key.index == c.index
  {
  }

  lemma WriteStrays(f: Prepared, m: Method, index: string, x: string)
    requires !PlainIndex(index) && x != "" && f.verb == MethodText(m) && f.path == DocPath(index, x, None)
    ensures forall op :: ReadOp(f) == Some(op) && (op.Write? || op.Erase?) ==> op.key.index != index
  {
    EncodedFree(x);
    assert f.path == SegmentPath(index, Percent.Encode(x)) by { NoQuery(SegmentPath(index, Percent.Encode(x))); }
    IndexReadIff(m, index, Percent.Encode(x));
    forall op | ReadOp(f) == Some(op) && (op.Write? || op.Erase?) ensures op.key.index != index {
      ReadAs(f, m, Classify(m, PathOf(f.path)));
      WrittenIndex(f, m, Classify(m, PathOf(f.path)), op);
    }
  }

  lemma PutStores(tenancy: Tenancy, docs: Docs, put: Ctx, t: string, x: string)
    requires Open(tenancy, put, t) && put.endpoint == IngestDoc && put.docId == Some(x) && x != ""
    requires ParseObject(put.body).Ok? && PlainIndex(IndexOf(tenancy, t, put.logicalIndex))
    ensures SharedStep(tenancy.AsRouter(), docs, put).0
            == docs[StoredAt(tenancy, t, put.logicalIndex, x) := Obj(ParseObject(put.body).value)]
  {
    PutAsksIff(tenancy, put, t, x);
  }

  /** In every store, what a tenant puts it then gets, under its own names, as it wrote it. */
  lemma PutThenGet(tenancy: Tenancy, docs: Docs, put: Ctx, get: Ctx, t: string, x: string)
    requires Open(tenancy, put, t) && put.endpoint == IngestDoc && put.docId == Some(x) && x != ""
    requires ParseObject(put.body).Ok? && AllValid(docs)
    requires tenancy.ResolvePartition(get) == Ok(t) && get.endpoint == GetById && get.verb == GET
    requires get.docId == Some(x) && get.logicalIndex == put.logicalIndex
    requires PlainIndex(IndexOf(tenancy, t, put.logicalIndex))
    ensures SharedStep(tenancy.AsRouter(), SharedStep(tenancy.AsRouter(), docs, put).0, get).1
            == Shown(DocText((get.logicalIndex, x), Some(Obj(ParseObject(put.body).value))))
  {
    var k := StoredAt(tenancy, t, put.logicalIndex, x);
    var after := docs[k := Obj(ParseObject(put.body).value)];
    PutStores(tenancy, docs, put, t, x);
    ParseValid(put.body);
    assert AllValid(after);
    GetShows(tenancy, after, get, t, x);
  }

  // ----- a bulk request -----

  /** Entry by entry the client's own: verb, id and source, in this index. */
  ghost predicate EntriesAsIs(items: seq<BulkItem>, now: seq<BulkEntry>, index: string) {
    && |now| == |items|
    && forall i :: 0 <= i < |items| ==>
         && now[i].action == items[i].action && now[i].source == items[i].source
         && ScalarField(now[i].meta, "_id") == items[i].id && ScalarField(now[i].meta, "_index") == Some(index)
         && !Has(now[i].meta, "routing")
  }

  /** Every source of a bulk body is an object. */
  predicate ObjectSources(items: seq<BulkItem>) {
    forall i :: 0 <= i < |items| ==> items[i].source.Some? ==> ParseObject(items[i].source.value).Ok?
  }

  lemma EntryAsIs(p: Resolved, item: BulkItem)
    requires p.transform == NoTransform
    ensures Bulk.RewriteItem(p, item).Ok? <==> (item.source.Some? ==> ParseObject(item.source.value).Ok?)
    ensures Bulk.RewriteItem(p, item).Ok? ==>
              var e := Bulk.EntryFor(p, item);
              && e.action == item.action && e.source == item.source && ScalarField(e.meta, "_id") == item.id
              && ScalarField(e.meta, "_index") == Some(p.target.index) && !Has(e.meta, "routing")
  {
    if Bulk.RewriteItem(p, item).Ok? { Bulk.ActionMetaValid(p, Bulk.RewriteItem(p, item).value.0); }
  }

  lemma BulkAsIs(p: Resolved, body: string)
    requires p.transform == NoTransform && ParseBulk(body).Ok?
    ensures Bulk.RewriteBulk(p, body).Ok? <==> ObjectSources(ParseBulk(body).value)
    ensures Bulk.RewriteBulk(p, body).Ok? ==>
              var now := ParseEntries(Lines(Bulk.RewriteBulk(p, body).value));
              now.Ok? && EntriesAsIs(ParseBulk(body).value, now.value, p.target.index)
  {
    var items := ParseBulk(body).value;
    forall i | 0 <= i < |items|
      ensures Bulk.RewriteItem(p, items[i]).Ok? <==>
              (items[i].source.Some? ==> ParseObject(items[i].source.value).Ok?)
    {
      EntryAsIs(p, items[i]);
    }
    Bulk.BulkIsAllOrNothing(p, body);
    if Bulk.RewriteBulk(p, body).Ok? {
      Bulk.RewrittenBulkRead(p, body);
      forall i | 0 <= i < |items|
        ensures var e := Bulk.EntriesFor(p, items)[i];
                && e.action == items[i].action && e.source == items[i].source
                && ScalarField(e.meta, "_id") == items[i].id
                && ScalarField(e.meta, "_index") == Some(p.target.index) && !Has(e.meta, "routing")
      {
        EntryAsIs(p, items[i]);
      }
    }
  }

  lemma BulkForward(p: Resolved, ctx: Ctx)
    requires ctx.endpoint == IngestBulk
    ensures ForwardFor(p, ctx) == OrReply(Bulk.RewriteBulk(p, ctx.body), p, "POST", "/_bulk")
  {
  }

  /** A bulk request is forwarded with the client's own verbs, ids and sources, in order, every entry
      for the decision's one index; it is refused exactly when it does not parse or some source is
      no object. */
  lemma BulkForwardedAsIs(tenancy: Tenancy, ctx: Ctx, t: string)
    requires Open(tenancy, ctx, t) && ctx.endpoint == IngestBulk
    ensures var (forward, parsed) := (Prepare(tenancy.AsRouter(), ctx), ParseBulk(ctx.body));
            if parsed.Err? || !ObjectSources(parsed.value)
            then forward == Immediate(ErrorReply(400, "body_rewrite_failed"))
            else
              && forward.Upstream? && forward.f.verb == "POST" && forward.f.path == "/_bulk"
              && ParseEntries(Lines(forward.f.body)).Ok?
              && EntriesAsIs(parsed.value, ParseEntries(Lines(forward.f.body)).value,
                             IndexOf(tenancy, t, ctx.logicalIndex))
  {
    var p := tenancy.Decide(t, ctx.logicalIndex);
    BulkForward(p, ctx);
    BulkRefusal(p, ctx.body);
    if ParseBulk(ctx.body).Ok? { BulkAsIs(p, ctx.body); }
  }

  lemma {:induction false} LinesRefusal(p: Resolved, items: seq<BulkItem>)
    requires p.transform == NoTransform
    ensures Bulk.ItemsLines(p, items).Err? ==> Bulk.ItemsLines(p, items).error.RewriteFailed?
  {
    if items != [] { LinesRefusal(p, items[1..]); }
  }

  lemma BulkRefusal(p: Resolved, body: string)
    requires p.transform == NoTransform
    ensures Bulk.RewriteBulk(p, body).Err? ==> Bulk.RewriteBulk(p, body).error.RewriteFailed?
  {
    if ParseBulk(body).Ok? { LinesRefusal(p, ParseBulk(body).value); }
  }
}
