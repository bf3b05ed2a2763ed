/** Reads in the dedicated modes: which stored documents a tenant's get or mget asks for, and that
    the shaped answer is those documents under the client's own names. */
module DedicatedReads {
  import opened Common
  import opened Json
  import opened Rewrite
  import opened Ndjson
  import opened Adapter
  import opened Transform
  import opened Response
  import opened Route
  import opened Reference
  import opened Shared
  import opened Wire
  import opened Replies
  import opened Raw
  import opened Foreign
  import opened BypassReach
  import opened Runs
  import opened Dedicated
  import Engine
  import Demux
  import Percent

  predicate OwnPlaces(tenancy: Tenancy) {
    !tenancy.isolation.SharedIndex?
  }

  /** The physical index of a tenant's request: its own in dedicated-index mode, the one the client
      names with a dedicated cluster. */
  function IndexOf(tenancy: Tenancy, t: string, logical: string): string {
    tenancy.Decide(t, logical).target.index
  }

  /** The stored document behind a logical id: the id is the client's. */
  function StoredAt(tenancy: Tenancy, t: string, logical: string, x: string): Key {
    Key(tenancy.ClusterFor(t), IndexOf(tenancy, t, logical), x)
  }

  function StoredAll(tenancy: Tenancy, t: string, logical: string, xs: seq<string>): (r: seq<Key>)
    ensures |r| == |xs| && forall i :: 0 <= i < |xs| ==> r[i] == StoredAt(tenancy, t, logical, xs[i])
  {
    seq(|xs|, i requires 0 <= i < |xs| => StoredAt(tenancy, t, logical, xs[i]))
  }

  // ----- what is asked -----

  /** A get asks for its own document, whatever characters the id holds, exactly when the name of
      its physical index is plain. */
  lemma GetAsksIff(tenancy: Tenancy, ctx: Ctx, t: string, x: string)
    requires OwnPlaces(tenancy) && tenancy.ResolvePartition(ctx) == Ok(t)
    requires ctx.endpoint == GetById && (ctx.verb == GET || ctx.verb == HEAD) && ctx.docId == Some(x) && x != ""
    ensures var forward := Prepare(tenancy.AsRouter(), ctx);
            && forward.Upstream?
            && (ReadOp(forward.f) == Some(Engine.Fetch(StoredAt(tenancy, t, ctx.logicalIndex, x)))
                <==> PlainIndex(IndexOf(tenancy, t, ctx.logicalIndex)))
  {
    var p := tenancy.Decide(t, ctx.logicalIndex);
    var f := ByIdForward(p, ctx).f;
    if PlainIndex(p.target.index) {
      ReadDoc(f, ctx.verb, p.target.index, x, None);
    } else {
      StraysFrom(f, ctx.verb, p.target.index, x);
    }
  }

  /** A key read from a path has the path's index. */
  lemma FetchedIndex(f: Prepared, m: Method, k: Key)
    requires f.verb == MethodText(m) && ReadOp(f) == Some(Engine.Fetch(k))
    ensures k.index == Classify(m, PathOf(f.path)).index
  {
    ReadAs(f, m, Classify(m, PathOf(f.path)));
    ClassifiedIndex(f, m, Classify(m, PathOf(f.path)), k);
  }

  lemma ClassifiedIndex(f: Prepared, m: Method, c: Classified, k: Key)
    requires ReadClassified(f, m, c) == Some(Engine.Fetch(k))
    ensures k.index == c.index
  {
  }

  lemma StraysFrom(f: Prepared, m: Method, index: string, x: string)
    requires !PlainIndex(index) && x != "" && f.verb == MethodText(m) && f.path == DocPath(index, x, None)
    ensures forall k: Key :: ReadOp(f) == Some(Engine.Fetch(k)) ==> k.index != index
  {
    EncodedFree(x);
    assert f.path == SegmentPath(index, Percent.Encode(x)) by { PathAlone(SegmentPath(index, Percent.Encode(x))); }
    IndexReadIff(m, index, Percent.Encode(x));
    forall k: Key | ReadOp(f) == Some(Engine.Fetch(k)) ensures k.index != index { FetchedIndex(f, m, k); }
  }

  lemma {:induction false} UnmappedDocs(p: Resolved, ids: seq<string>)
    requires p.transform == NoTransform
    ensures Demux.MgetDocs(p, ids).Ok?
  {
    if ids != [] { UnmappedDocs(p, ids[1..]); }
  }

  /** A multi-get reaches every document it names, in order, in the tenant's one index. */
  lemma MgetAsks(tenancy: Tenancy, ctx: Ctx, t: string)
    requires OwnPlaces(tenancy) && tenancy.ResolvePartition(ctx) == Ok(t) && ctx.endpoint == MultiGet
    requires ParseMget(ctx.body).Ok?
    ensures var forward := Prepare(tenancy.AsRouter(), ctx);
            && forward.Upstream?
            && ReadOp(forward.f)
               == Some(Engine.FetchMany(StoredAll(tenancy, t, ctx.logicalIndex, ParseMget(ctx.body).value)))
  {
    var p := tenancy.Decide(t, ctx.logicalIndex);
    var xs := ParseMget(ctx.body).value;
    UnmappedDocs(p, xs);
    Demux.RewrittenMgetRead(p, "", ctx.body);
    MgetForward(p, ctx, Demux.Located(p, xs));
    assert TargetKeys(p.target.cluster, Demux.Located(p, xs)) == StoredAll(tenancy, t, ctx.logicalIndex, xs);
  }

  // ----- what is shown -----

  lemma NothingStripped(doc: Json)
    ensures StripFields(doc, []) == doc
  {
  }

  /** Shaping one document renames its index and nothing else. */
  lemma DocShown(tenancy: Tenancy, t: string, logical: string, x: string, doc: Option<Json>)
    requires OwnPlaces(tenancy)
    ensures var v := ViewOf(tenancy.Decide(t, logical), logical);
            var was := Obj(Engine.DocFields((IndexOf(tenancy, t, logical), x), doc));
            && GetShaped(was, v, x) == Obj(Engine.DocFields((logical, x), doc))
            && HitShaped(was, v) == Obj(Engine.DocFields((logical, x), doc))
  {
    var v := ViewOf(tenancy.Decide(t, logical), logical);
    var was := Engine.DocFields((IndexOf(tenancy, t, logical), x), doc);
    IndexRenamed(IndexOf(tenancy, t, logical), logical, x, doc);
    if doc.Some? { NothingStripped(doc.value); }
    PlainGetShaped(v, (logical, x), doc);
    MgetAgreesWithGetIff(was, v, x);
    NameGot(IndexOf(tenancy, t, logical), logical, x, doc);
  }

  lemma IndexRenamed(index: string, logical: string, x: string, doc: Option<Json>)
    ensures Insert(Engine.DocFields((index, x), doc), "_index", Str(logical)) == Engine.DocFields((logical, x), doc)
    ensures Insert(Engine.DocFields((logical, x), doc), "_index", Str(logical)) == Engine.DocFields((logical, x), doc)
  {
    FetchFieldsAre((index, x), doc);
    FetchFieldsAre((logical, x), doc);
    var rest := [("_id", Str(x))] + ([("found", Bool(doc.Some?))] + SourceField(doc));
    InsertHere("_index", Str(logical), Str(index), rest);
    InsertHere("_index", Str(logical), Str(logical), rest);
  }

  lemma NameGot(index: string, logical: string, x: string, doc: Option<Json>)
    ensures Get(Insert(Engine.DocFields((index, x), doc), "_index", Str(logical)), "_id") == Some(Str(x))
  {
    IndexRenamed(index, logical, x, doc);
    FetchFieldsAre((logical, x), doc);
    var rest := [("_id", Str(x))] + ([("found", Bool(doc.Some?))] + SourceField(doc));
    assert ([("_index", Str(logical))] + rest)[1..] == rest && rest[0] == ("_id", Str(x));
  }

  /** The answer to a get, shaped, is the stored document under the client's own names. */
  lemma GetAnswerShown(tenancy: Tenancy, ctx: Ctx, t: string, x: string, doc: Option<Json>)
    requires OwnPlaces(tenancy) && tenancy.ResolvePartition(ctx) == Ok(t)
    requires ctx.endpoint == GetById && ctx.docId == Some(x) && (doc.Some? ==> Valid(doc.value))
    ensures ShapeReadResponse(tenancy.AsRouter(), ctx, DocText((IndexOf(tenancy, t, ctx.logicalIndex), x), doc))
            == Some(DocText((ctx.logicalIndex, x), doc))
  {
    DocShown(tenancy, t, ctx.logicalIndex, x, doc);
    DocValid((IndexOf(tenancy, t, ctx.logicalIndex), x), doc);
    ParsePrint(Obj(Engine.DocFields((IndexOf(tenancy, t, ctx.logicalIndex), x), doc)));
  }

  lemma DocsShown(tenancy: Tenancy, t: string, logical: string, docs: seq<(string, Option<Json>)>)
    requires OwnPlaces(tenancy)
    ensures HitsShaped(Engine.DocsJson(docs, LogicalNaming(IndexOf(tenancy, t, logical))),
                       ViewOf(tenancy.Decide(t, logical), logical))
            == Engine.DocsJson(docs, LogicalNaming(logical))
  {
    var v := ViewOf(tenancy.Decide(t, logical), logical);
    var was := Engine.DocsJson(docs, LogicalNaming(IndexOf(tenancy, t, logical)));
    forall i | 0 <= i < |docs| ensures HitShaped(was[i], v) == Obj(Engine.DocFields((logical, docs[i].0), docs[i].1)) {
      DocShown(tenancy, t, logical, docs[i].0, docs[i].1);
    }
  }

  /** The answer to a multi-get, shaped, is the stored documents under the client's own names, in
      order, found or not. */
  lemma MgetAnswerShown(tenancy: Tenancy, ctx: Ctx, t: string, docs: seq<(string, Option<Json>)>)
    requires OwnPlaces(tenancy) && tenancy.ResolvePartition(ctx) == Ok(t)
    requires ctx.endpoint == MultiGet && ValidDocs(docs)
    ensures ShapeReadResponse(tenancy.AsRouter(), ctx,
                              MgetText(docs, LogicalNaming(IndexOf(tenancy, t, ctx.logicalIndex))))
            == Some(MgetText(docs, LogicalNaming(ctx.logicalIndex)))
  {
    var was := Engine.DocsJson(docs, LogicalNaming(IndexOf(tenancy, t, ctx.logicalIndex)));
    DocsShown(tenancy, t, ctx.logicalIndex, docs);
    DocsValid(docs, LogicalNaming(IndexOf(tenancy, t, ctx.logicalIndex)));
    MgetAgain(ViewOf(tenancy.Decide(t, ctx.logicalIndex), ctx.logicalIndex), was,
              Engine.DocsJson(docs, LogicalNaming(ctx.logicalIndex)));
  }

  /** Every stored document is a JSON value. */
  predicate AllValid(docs: Docs) {
    forall k :: k in docs ==> Valid(docs[k])
  }

  /** A read that is shaped is shown shaped. */
  lemma ReadStepIs(router: Router, docs: Docs, ctx: Ctx, op: Engine.Op<Key>, upstream: string, own: string)
    requires Prepare(router, ctx).Upstream? && ReadOp(Prepare(router, ctx).f) == Some(op)
    requires op.Fetch? || op.FetchMany?
    requires Prepare(router, ctx).f.verb != "HEAD" && ShapedEndpoint(ctx.endpoint)
    requires upstream == Print(Engine.AnswerJson(Engine.Exec(docs, op).1, PhysicalNaming()))
    requires ShapeReadResponse(router, ctx, upstream) == Some(own)
    ensures SharedStep(router, docs, ctx) == (docs, Shown(own))
  {
  }

  lemma MgetVerb(router: Router, ctx: Ctx)
    requires ctx.endpoint == MultiGet && Prepare(router, ctx).Upstream?
    ensures Prepare(router, ctx).f.verb == "POST"
  {
  }

  lemma GetVerb(router: Router, ctx: Ctx)
    requires ctx.endpoint == GetById && Prepare(router, ctx).Upstream?
    ensures Prepare(router, ctx).f.verb == MethodText(ctx.verb)
  {
  }

  lemma GetTextStored(docs: Docs, k: Key)
    ensures Print(Engine.AnswerJson(Engine.Exec(docs, Engine.Fetch(k)).1, PhysicalNaming()))
            == DocText((k.index, k.id), Engine.Lookup(docs, k))
  {
  }

  /** In any store, a get shows exactly what is stored behind the client's id in its own index. */
  lemma GetShows(tenancy: Tenancy, docs: Docs, ctx: Ctx, t: string, x: string)
    requires OwnPlaces(tenancy) && tenancy.ResolvePartition(ctx) == Ok(t) && AllValid(docs)
    requires ctx.endpoint == GetById && ctx.verb == GET && ctx.docId == Some(x) && x != ""
    requires PlainIndex(IndexOf(tenancy, t, ctx.logicalIndex))
    ensures SharedStep(tenancy.AsRouter(), docs, ctx) ==
            (docs, Shown(DocText((ctx.logicalIndex, x),
                                 Engine.Lookup(docs, StoredAt(tenancy, t, ctx.logicalIndex, x)))))
  {
    var k := StoredAt(tenancy, t, ctx.logicalIndex, x);
    var doc := Engine.Lookup(docs, k);
    GetAsksIff(tenancy, ctx, t, x);
    GetVerb(tenancy.AsRouter(), ctx);
    GetTextStored(docs, k);
    GetAnswerShown(tenancy, ctx, t, x, doc);
    ReadStepIs(tenancy.AsRouter(), docs, ctx, Engine.Fetch(k),
               DocText((IndexOf(tenancy, t, ctx.logicalIndex), x), doc), DocText((ctx.logicalIndex, x), doc));
  }

  /** What is stored behind the client's ids. */
  function FoundAll(tenancy: Tenancy, docs: Docs, t: string, logical: string, xs: seq<string>)
    : (r: seq<(string, Option<Json>)>)
    ensures |r| == |xs|
  {
    seq(|xs|, i requires 0 <= i < |xs| => (xs[i], Engine.Lookup(docs, StoredAt(tenancy, t, logical, xs[i]))))
  }

  lemma MgetTextStored(tenancy: Tenancy, docs: Docs, t: string, logical: string, xs: seq<string>)
    ensures Print(Engine.AnswerJson(Engine.Exec(docs, Engine.FetchMany(StoredAll(tenancy, t, logical, xs))).1,
                                    PhysicalNaming()))
            == MgetText(FoundAll(tenancy, docs, t, logical, xs), LogicalNaming(IndexOf(tenancy, t, logical)))
  {
    var found := Engine.LookupAll(docs, StoredAll(tenancy, t, logical, xs));
    assert Engine.DocsJson(found, PhysicalNaming())
           == Engine.DocsJson(FoundAll(tenancy, docs, t, logical, xs), LogicalNaming(IndexOf(tenancy, t, logical)));
  }

  lemma FoundShown(tenancy: Tenancy, docs: Docs, ctx: Ctx, t: string, xs: seq<string>)
    requires OwnPlaces(tenancy) && tenancy.ResolvePartition(ctx) == Ok(t) && AllValid(docs) && ctx.endpoint == MultiGet
    ensures var found := FoundAll(tenancy, docs, t, ctx.logicalIndex, xs);
            ShapeReadResponse(tenancy.AsRouter(), ctx,
                              MgetText(found, LogicalNaming(IndexOf(tenancy, t, ctx.logicalIndex))))
            == Some(MgetText(found, LogicalNaming(ctx.logicalIndex)))
  {
    MgetAnswerShown(tenancy, ctx, t, FoundAll(tenancy, docs, t, ctx.logicalIndex, xs));
  }

  /** And a multi-get, name by name. */
  lemma MgetShows(tenancy: Tenancy, docs: Docs, ctx: Ctx, t: string)
    requires OwnPlaces(tenancy) && tenancy.ResolvePartition(ctx) == Ok(t) && AllValid(docs)
    requires ctx.endpoint == MultiGet && ParseMget(ctx.body).Ok?
    ensures var found := FoundAll(tenancy, docs, t, ctx.logicalIndex, ParseMget(ctx.body).value);
            SharedStep(tenancy.AsRouter(), docs, ctx) == (docs, Shown(MgetText(found, LogicalNaming(ctx.logicalIndex))))
  {
    var xs := ParseMget(ctx.body).value;
    var found := FoundAll(tenancy, docs, t, ctx.logicalIndex, xs);
    MgetAsks(tenancy, ctx, t);
    MgetVerb(tenancy.AsRouter(), ctx);
    MgetTextStored(tenancy, docs, t, ctx.logicalIndex, xs);
    FoundShown(tenancy, docs, ctx, t, xs);
    ReadStepIs(tenancy.AsRouter(), docs, ctx, Engine.FetchMany(StoredAll(tenancy, t, ctx.logicalIndex, xs)),
               MgetText(found, LogicalNaming(IndexOf(tenancy, t, ctx.logicalIndex))),
               MgetText(found, LogicalNaming(ctx.logicalIndex)));
  }
}
