/** The response phase on answers as an upstream may really give them, with any further fields:
    error results, versions, scores. What is said holds for every router and every such answer. */
module Shapes {
  import opened Common
  import opened Json
  import opened Rewrite
  import opened Adapter
  import opened Transform
  import opened Response
  import opened Route

  /** The object holds this list under this key. */
  predicate Lists(top: Json, key: string, xs: seq<Json>) {
    top.Obj? && Get(top.fields, key) == Some(Arr(xs))
  }

  /** The list under this key replaced, and nothing else changed. */
  predicate OnlyListChanged(was: Json, now: Json, key: string, list: seq<Json>) {
    && was.Obj? && now.Obj? && Get(now.fields, key) == Some(Arr(list))
    && |now.fields| == |was.fields|
    && forall i :: 0 <= i < |was.fields| ==>
         && now.fields[i].0 == was.fields[i].0
         && (was.fields[i].0 != key ==> now.fields[i] == was.fields[i])
  }

  lemma {:induction false} InsertOver(fs: Fields, key: string, v: Json)
    requires Has(fs, key)
    ensures var now := Insert(fs, key, v);
            && |now| == |fs| && Get(now, key) == Some(v)
            && forall i :: 0 <= i < |fs| ==> now[i].0 == fs[i].0 && (fs[i].0 != key ==> now[i] == fs[i])
  {
    if fs[0].0 != key {
      InsertOver(fs[1..], key, v);
      var now := Insert(fs, key, v);
      assert now[1..] == Insert(fs[1..], key, v);
      assert forall i :: 0 < i < |fs| ==> now[i] == now[1..][i - 1] && fs[i] == fs[1..][i - 1];
    }
  }

  lemma ListReplaced(top: Json, key: string, xs: seq<Json>, list: seq<Json>)
    requires Lists(top, key, xs)
    ensures OnlyListChanged(top, WithArray(top, key, list), key, list)
  {
    InsertOver(top.fields, key, Arr(list));
  }

  function ClientItems(items: seq<Json>, p: Resolved, index: string, logicals: seq<string>): (r: seq<Json>)
    requires |items| == |logicals| && forall i :: 0 <= i < |items| ==> ItemAbout(items[i], p, logicals[i])
    ensures |r| == |items|
    ensures forall i :: 0 <= i < |items| ==> r[i] == ClientItem(items[i], p, index, logicals[i])
  {
    seq(|items|, i requires 0 <= i < |items| => ClientItem(items[i], p, index, logicals[i]))
  }

  lemma ShapedBulk(router: Router, ctx: Ctx, p: Resolved, top: Json, items: seq<Json>)
    requires router.resolve(ctx) == Ok(p) && ctx.endpoint == IngestBulk
    requires Valid(top) && Lists(top, "items", items)
    ensures ShapeReadResponse(router, ctx, Print(top)) ==
            Some(Print(WithArray(top, "items", ItemsShaped(items, ViewOf(p, ctx.logicalIndex)))))
  {
    ParsePrint(top);
  }

  /** The whole bulk answer: every item under its verb is shown with the client's index and id and
      everything else its result holds, and so is everything beside the items. */
  lemma BulkAnswerShown(router: Router, ctx: Ctx, p: Resolved, top: Json, items: seq<Json>, logicals: seq<string>)
    returns (now: Json)
    requires router.resolve(ctx) == Ok(p) && ctx.endpoint == IngestBulk
    requires Valid(top) && Lists(top, "items", items)
    requires |items| == |logicals| && forall i :: 0 <= i < |items| ==> ItemAbout(items[i], p, logicals[i])
    ensures ShapeReadResponse(router, ctx, Print(top)) == Some(Print(now))
    ensures OnlyListChanged(top, now, "items", ClientItems(items, p, ctx.logicalIndex, logicals))
  {
    var list := ClientItems(items, p, ctx.logicalIndex, logicals);
    ItemsInverse(items, p, ctx.logicalIndex, logicals);
    assert ItemsShaped(items, ViewOf(p, ctx.logicalIndex)) == list;
    ShapedBulk(router, ctx, p, top, items);
    ListReplaced(top, "items", items, list);
    now := WithArray(top, "items", list);
  }

  predicate DocsAbout(docs: seq<Json>, p: Resolved, logicals: seq<string>, sources: seq<Option<Fields>>) {
    && |docs| == |logicals| == |sources|
    && forall i :: 0 <= i < |docs| ==> docs[i].Obj? && AboutStored(docs[i].fields, p, logicals[i], sources[i])
  }

  function ClientDocs(docs: seq<Json>, p: Resolved, index: string, logicals: seq<string>, sources: seq<Option<Fields>>)
    : (r: seq<Json>)
    requires DocsAbout(docs, p, logicals, sources)
    ensures |r| == |docs|
    ensures forall i :: 0 <= i < |docs| ==> r[i] == Obj(ClientFields(docs[i].fields, index, logicals[i], sources[i]))
  {
    seq(|docs|, i requires 0 <= i < |docs| => Obj(ClientFields(docs[i].fields, index, logicals[i], sources[i])))
  }

  lemma ShapedDocs(router: Router, ctx: Ctx, p: Resolved, top: Json, docs: seq<Json>)
    requires router.resolve(ctx) == Ok(p) && ctx.endpoint == MultiGet
    requires Valid(top) && Lists(top, "docs", docs)
    ensures ShapeReadResponse(router, ctx, Print(top)) ==
            Some(Print(WithArray(top, "docs", HitsShaped(docs, ViewOf(p, ctx.logicalIndex)))))
  {
    ParsePrint(top);
  }

  /** The whole multi-get answer likewise. */
  lemma MgetAnswerShown(router: Router, ctx: Ctx, p: Resolved, top: Json, docs: seq<Json>,
                        logicals: seq<string>, sources: seq<Option<Fields>>)
    returns (now: Json)
    requires router.resolve(ctx) == Ok(p) && ctx.endpoint == MultiGet
    requires Valid(top) && Lists(top, "docs", docs) && DocsAbout(docs, p, logicals, sources)
    ensures ShapeReadResponse(router, ctx, Print(top)) == Some(Print(now))
    ensures OnlyListChanged(top, now, "docs", ClientDocs(docs, p, ctx.logicalIndex, logicals, sources))
  {
    var list := ClientDocs(docs, p, ctx.logicalIndex, logicals, sources);
    HitsInverse(docs, p, ctx.logicalIndex, logicals, sources);
    assert HitsShaped(docs, ViewOf(p, ctx.logicalIndex)) == list;
    ShapedDocs(router, ctx, p, top, docs);
    ListReplaced(top, "docs", docs, list);
    now := WithArray(top, "docs", list);
  }

  /** And the answer to a get. */
  lemma GetAnswerShown(router: Router, ctx: Ctx, p: Resolved, fs: Fields, logical: string, source: Option<Fields>)
    requires router.resolve(ctx) == Ok(p) && ctx.endpoint == GetById && ctx.docId == Some(logical)
    requires Valid(Obj(fs)) && AboutStored(fs, p, logical, source)
    ensures ShapeReadResponse(router, ctx, Print(Obj(fs))) ==
            Some(Print(Obj(ClientFields(fs, ctx.logicalIndex, logical, source))))
  {
    ParsePrint(Obj(fs));
    GetInverse(fs, p, logical, source, ctx.logicalIndex);
  }

  // ----- searches -----

  /** The response holds these hits, under `hits` twice over. */
  predicate HoldsHits(response: Json, outer: Json, hits: seq<Json>) {
    response.Obj? && Get(response.fields, "hits") == Some(outer) && Lists(outer, "hits", hits)
  }

  /** The same response with other hits, and nothing else changed in it. */
  ghost predicate OnlyHitsChanged(was: Json, now: Json, outer: Json, list: seq<Json>) {
    && was.Obj? && now.Obj? && Get(now.fields, "hits").Some?
    && OnlyListChanged(outer, Get(now.fields, "hits").value, "hits", list)
    && |now.fields| == |was.fields|
    && forall i :: 0 <= i < |was.fields| ==>
         && now.fields[i].0 == was.fields[i].0
         && (was.fields[i].0 != "hits" ==> now.fields[i] == was.fields[i])
  }

  lemma OneSearchShaped(p: Resolved, index: string, response: Json, outer: Json, hits: seq<Json>,
                        logicals: seq<string>, sources: seq<Option<Fields>>)
    requires HoldsHits(response, outer, hits) && DocsAbout(hits, p, logicals, sources)
    ensures OnlyHitsChanged(response, SearchShaped(response, ViewOf(p, index)), outer,
                            ClientDocs(hits, p, index, logicals, sources))
  {
    var list := ClientDocs(hits, p, index, logicals, sources);
    HitsInverse(hits, p, index, logicals, sources);
    assert HitsShaped(hits, ViewOf(p, index)) == list;
    assert InnerHits(response) == Some((outer, hits));
    ListReplaced(outer, "hits", hits, list);
    InsertOver(response.fields, "hits", WithArray(outer, "hits", list));
  }

  /** The whole search answer: every hit is shown as the client's own document with everything else
      it holds, and so is everything beside the hits. */
  lemma SearchAnswerShown(router: Router, ctx: Ctx, p: Resolved, top: Json, outer: Json, hits: seq<Json>,
                          logicals: seq<string>, sources: seq<Option<Fields>>)
    returns (now: Json)
    requires router.resolve(ctx) == Ok(p) && ctx.endpoint == Endpoint.Search
    requires Valid(top) && HoldsHits(top, outer, hits) && DocsAbout(hits, p, logicals, sources)
    ensures ShapeReadResponse(router, ctx, Print(top)) == Some(Print(now))
    ensures OnlyHitsChanged(top, now, outer, ClientDocs(hits, p, ctx.logicalIndex, logicals, sources))
  {
    now := SearchShaped(top, ViewOf(p, ctx.logicalIndex));
    ParsePrint(top);
    OneSearchShaped(p, ctx.logicalIndex, top, outer, hits, logicals, sources);
  }

  /** A response without hits, an error for instance, is kept. */
  lemma NoHitsKept(p: Resolved, index: string, response: Json)
    requires forall outer, hits :: !HoldsHits(response, outer, hits)
    ensures SearchShaped(response, ViewOf(p, index)) == response
  {
    if InnerHits(response).Some? {
      assert HoldsHits(response, InnerHits(response).value.0, InnerHits(response).value.1);
    }
  }

  /** The whole multi-search answer: its responses one by one, and nothing beside them. */
  lemma MsearchAnswerShown(router: Router, ctx: Ctx, p: Resolved, top: Json, rs: seq<Json>)
    returns (now: Json, list: seq<Json>)
    requires router.resolve(ctx) == Ok(p) && ctx.endpoint == MultiSearch
    requires Valid(top) && Lists(top, "responses", rs)
    ensures ShapeReadResponse(router, ctx, Print(top)) == Some(Print(now))
    ensures OnlyListChanged(top, now, "responses", list) && |list| == |rs|
    ensures forall i, outer, hits, logicals, sources ::
              0 <= i < |rs| && HoldsHits(rs[i], outer, hits) && DocsAbout(hits, p, logicals, sources) ==>
                OnlyHitsChanged(rs[i], list[i], outer, ClientDocs(hits, p, ctx.logicalIndex, logicals, sources))
    ensures forall i :: 0 <= i < |rs| && (forall outer, hits :: !HoldsHits(rs[i], outer, hits)) ==> list[i] == rs[i]
  {
    list := ResponsesShaped(rs, ViewOf(p, ctx.logicalIndex));
    ParsePrint(top);
    ListReplaced(top, "responses", rs, list);
    now := WithArray(top, "responses", list);
    forall i, outer, hits, logicals, sources |
      0 <= i < |rs| && HoldsHits(rs[i], outer, hits) && DocsAbout(hits, p, logicals, sources)
      ensures OnlyHitsChanged(rs[i], list[i], outer, ClientDocs(hits, p, ctx.logicalIndex, logicals, sources))
    {
      OneSearchShaped(p, ctx.logicalIndex, rs[i], outer, hits, logicals, sources);
    }
    forall i | 0 <= i < |rs| && (forall outer, hits :: !HoldsHits(rs[i], outer, hits)) ensures list[i] == rs[i] {
      NoHitsKept(p, ctx.logicalIndex, rs[i]);
    }
  }

  // ----- what was written is read back -----

  /** A transformed body is the client's object with the decision's fields added; without any it is
      the client's own text. */
  lemma AppliedBody(p: Resolved, body: string)
    requires ValidTransform(p.transform) && Apply(body, p.transform, p.partition).Ok?
    ensures ParseObject(body).Ok? && ResolveValues(p.transform.Injected(), p.partition).Ok?
    ensures var injected := ResolveValues(p.transform.Injected(), p.partition).value;
            && AddFields(ParseObject(body).value, injected).Ok?
            && ParseObject(Apply(body, p.transform, p.partition).value.body)
               == Ok(AddFields(ParseObject(body).value, injected).value)
            && (injected == [] && !p.transform.Inject? && !p.transform.Both? ==>
                  Apply(body, p.transform, p.partition).value.body == body)
  {
    var injected := ResolveValues(p.transform.Injected(), p.partition).value;
    if p.transform.Inject? || p.transform.Both? {
      ResolvedValid(p.transform.Injected(), p.partition);
      ParseValid(body);
      var fs := ParseObject(body).value;
      AddFieldsValid(fs, injected);
      ParsePrint(Obj(AddFields(fs, injected).value));
    }
  }

  /** A constructed id is the physical id of the body's own id field. */
  lemma AppliedId(p: Resolved, body: string, rule: DocIdRule, shape: IdShape)
    requires p.transform.Rule() == Some(rule) && TemplateShape(rule.template) == Ok(shape)
    requires Apply(body, p.transform, p.partition).Ok?
    ensures ParseObject(body).Ok? && ScalarField(ParseObject(body).value, shape.field).Some?
    ensures var logical := ScalarField(ParseObject(body).value, shape.field).value;
            Apply(body, p.transform, p.partition).value.id.Some?
            && MapId(p.transform, p.partition, logical) == Ok(Apply(body, p.transform, p.partition).value.id.value)
  {
    ConstructIsMap(rule.template, p.partition, body, shape, ParseObject(body).value);
  }

  /** The answer to a get of what was written: the upstream's own fields around the stored source. */
  predicate AnswersWritten(fs: Fields, p: Resolved, written: string, logical: string) {
    && Valid(Obj(fs)) && ParseObject(written).Ok? && Get(fs, "_source") == Some(Obj(ParseObject(written).value))
    && Get(fs, "_id").Some? && Get(fs, "_id").value.Str?
    && MapId(p.transform, p.partition, logical) == Ok(Get(fs, "_id").value.s)
  }

  /** For every router and every transform, what was written is read back as the client wrote it:
      the answer to a get of the written document shows the fields of the client's own body, in
      their order, under the client's id, and everything else the upstream said. */
  lemma WrittenComesBack(router: Router, put: Ctx, get: Ctx, p: Resolved, fs: Fields, logical: string)
    requires router.resolve(put) == Ok(p) && put.endpoint == IngestDoc && ValidTransform(p.transform)
    requires router.resolve(get) == Ok(p) && get.endpoint == GetById && get.docId == Some(logical)
    requires Prepare(router, put).Upstream? && AnswersWritten(fs, p, Prepare(router, put).f.body, logical)
    ensures ParseObject(put.body).Ok?
    ensures ShapeReadResponse(router, get, Print(Obj(fs))) ==
            Some(Print(Obj(ClientFields(fs, get.logicalIndex, logical, Some(ParseObject(put.body).value)))))
  {
    WriteForwardBody(p, put);
    AppliedBody(p, put.body);
    GetAnswerShown(router, get, p, fs, logical, Some(ParseObject(put.body).value));
  }

  lemma WriteForwardBody(p: Resolved, ctx: Ctx)
    requires ctx.endpoint == IngestDoc && ForwardFor(p, ctx).Upstream?
    ensures Apply(ctx.body, p.transform, p.partition).Ok?
    ensures ForwardFor(p, ctx).f.body == Apply(ctx.body, p.transform, p.partition).value.body
  {
  }
}
