/** Response reshaping (crates/evoxy-route/src/response.rs): the inverse of the write
    transform, applied to the upstream's answer. The functions say what the answer becomes;
    the methods change it step by step, as the proxy does. */
module Response {
  import opened Common
  import opened Json
  import opened Rewrite
  import opened Transform

  /** What shaping needs of a decision, and the index name the client used. */
  datatype View = View(names: seq<string>, rule: Option<DocIdRule>, partition: string, index: string)

  function FieldNames(fields: seq<InjectedField>): (r: seq<string>)
    ensures |r| == |fields| && forall i :: 0 <= i < |fields| ==> r[i] == fields[i].name
  {
    if fields == [] then [] else [fields[0].name] + FieldNames(fields[1..])
  }

  function ViewOf(p: Resolved, logicalIndex: string): View {
    View(FieldNames(p.transform.Injected()), p.transform.Rule(), p.partition, logicalIndex)
  }

  // ----- one document -----

  /** The source with the injected fields gone, when there is one. */
  function SourceStripped(fs: Fields, names: seq<string>): Fields {
    var source := Get(fs, "_source");
    if source.None? then fs else Insert(fs, "_source", StripFields(source.value, names))
  }

  function GetShaped(doc: Json, v: View, logicalId: string): Json {
    if !doc.Obj? then doc else
      var fs := Insert(Insert(doc.fields, "_index", Str(v.index)), "_id", Str(logicalId));
      Obj(SourceStripped(fs, v.names))
  }

  /** The logical id of a physical one; None when the rule cannot name it. */
  function LogicalId(v: View, id: Option<Json>): Option<string> {
    if v.rule.None? || id.None? || !id.value.Str? then None else
      match MapPhysicalToLogical(v.rule.value.template, v.partition, id.value.s)
      case Ok(logical) => logical
      case Err(_) => None
  }

  function IdUnmapped(fs: Fields, v: View): Fields {
    var logical := LogicalId(v, Get(fs, "_id"));
    if logical.Some? then Insert(fs, "_id", Str(logical.value)) else fs
  }

  function HitShaped(hit: Json, v: View): Json {
    if !hit.Obj? then hit else
      Obj(SourceStripped(IdUnmapped(Insert(hit.fields, "_index", Str(v.index)), v), v.names))
  }

  function ResultShaped(result: Json, v: View): Json {
    if !result.Obj? then result else
      var fs := if Has(result.fields, "_index") then Insert(result.fields, "_index", Str(v.index))
                else result.fields;
      Obj(IdUnmapped(fs, v))
  }

  /** A bulk response item: the object under its first key. */
  function ItemShaped(item: Json, v: View): Json {
    if !item.Obj? || item.fields == [] then item
    else Obj([(item.fields[0].0, ResultShaped(item.fields[0].1, v))] + item.fields[1..])
  }

  // ----- lists -----

  function HitsShaped(hits: seq<Json>, v: View): (r: seq<Json>)
    ensures |r| == |hits| && forall i :: 0 <= i < |hits| ==> r[i] == HitShaped(hits[i], v)
  {
    if hits == [] then [] else [HitShaped(hits[0], v)] + HitsShaped(hits[1..], v)
  }

  function ItemsShaped(items: seq<Json>, v: View): (r: seq<Json>)
    ensures |r| == |items| && forall i :: 0 <= i < |items| ==> r[i] == ItemShaped(items[i], v)
  {
    if items == [] then [] else [ItemShaped(items[0], v)] + ItemsShaped(items[1..], v)
  }

  /** The array under a key of an object. */
  function ArrayAt(j: Json, key: string): Option<seq<Json>> {
    if !j.Obj? then None else
      match Get(j.fields, key)
      case Some(Arr(xs)) => Some(xs)
      case _ => None
  }

  function WithArray(j: Json, key: string, xs: seq<Json>): Json
    requires j.Obj?
  {
    Obj(Insert(j.fields, key, Arr(xs)))
  }

  /** `hits.hits[]` of one search response. */
  function InnerHits(response: Json): Option<(Json, seq<Json>)> {
    if !response.Obj? then None else
      match Get(response.fields, "hits")
      case Some(outer) =>
        (match ArrayAt(outer, "hits")
         case Some(xs) => Some((outer, xs))
         case None => None)
      case None => None
  }

  function SearchShaped(response: Json, v: View): Json {
    var inner := InnerHits(response);
    if inner.None? then response
    else Obj(Insert(response.fields, "hits", WithArray(inner.value.0, "hits", HitsShaped(inner.value.1, v))))
  }

  function ResponsesShaped(rs: seq<Json>, v: View): (r: seq<Json>)
    ensures |r| == |rs| && forall i :: 0 <= i < |rs| ==> r[i] == SearchShaped(rs[i], v)
  {
    if rs == [] then [] else [SearchShaped(rs[0], v)] + ResponsesShaped(rs[1..], v)
  }

  // ----- whole responses: text to text -----

  function ShapeGet(v: View, logicalId: string, body: string): Result<string, PrepareError> {
    match Parse(body)
    case None => Err(RewriteFailed(InvalidJson))
    case Some(doc) => Ok(Print(GetShaped(doc, v, logicalId)))
  }

  function ShapeSearch(v: View, body: string): Result<string, PrepareError> {
    match Parse(body)
    case None => Err(RewriteFailed(InvalidJson))
    case Some(top) => Ok(Print(SearchShaped(top, v)))
  }

  function ShapeBulk(v: View, body: string): Result<string, PrepareError> {
    match Parse(body)
    case None => Err(RewriteFailed(InvalidJson))
    case Some(top) =>
      var items := ArrayAt(top, "items");
      Ok(Print(if items.Some? then WithArray(top, "items", ItemsShaped(items.value, v)) else top))
  }

  function ShapeMget(v: View, body: string): Result<string, PrepareError> {
    match Parse(body)
    case None => Err(RewriteFailed(InvalidJson))
    case Some(top) =>
      var docs := ArrayAt(top, "docs");
      Ok(Print(if docs.Some? then WithArray(top, "docs", HitsShaped(docs.value, v)) else top))
  }

  function ShapeMsearch(v: View, body: string): Result<string, PrepareError> {
    match Parse(body)
    case None => Err(RewriteFailed(InvalidJson))
    case Some(top) =>
      var rs := ArrayAt(top, "responses");
      Ok(Print(if rs.Some? then WithArray(top, "responses", ResponsesShaped(rs.value, v)) else top))
  }

  // ----- the step-by-step shapers -----

  method ShapeHitInPlace(hit: Json, v: View) returns (shaped: Json)
    ensures shaped == HitShaped(hit, v)
  {
    if !hit.Obj? {
      return hit;
    }
    var obj := hit.fields;
    obj := Insert(obj, "_index", Str(v.index));
    if v.rule.Some? {
      var id := Get(obj, "_id");
      if id.Some? && id.value.Str? {
        var logical := MapPhysicalToLogical(v.rule.value.template, v.partition, id.value.s);
        if logical.Ok? && logical.value.Some? {
          obj := Insert(obj, "_id", Str(logical.value.value));
        }
      }
    }
    var source := Get(obj, "_source");
    if source.Some? {
      obj := Insert(obj, "_source", StripFields(source.value, v.names));
    }
    shaped := Obj(obj);
  }

  method ShapeResultInPlace(result: Json, v: View) returns (shaped: Json)
    ensures shaped == ResultShaped(result, v)
  {
    if !result.Obj? {
      return result;
    }
    var obj := result.fields;
    if Has(obj, "_index") {
      obj := Insert(obj, "_index", Str(v.index));
    }
    if v.rule.Some? {
      var id := Get(obj, "_id");
      if id.Some? && id.value.Str? {
        var logical := MapPhysicalToLogical(v.rule.value.template, v.partition, id.value.s);
        if logical.Ok? && logical.value.Some? {
          obj := Insert(obj, "_id", Str(logical.value.value));
        }
      }
    }
    shaped := Obj(obj);
  }

  method ShapeItemInPlace(item: Json, v: View) returns (shaped: Json)
    ensures shaped == ItemShaped(item, v)
  {
    shaped := item;
    if item.Obj? && item.fields != [] {
      var result := ShapeResultInPlace(item.fields[0].1, v);
      shaped := Obj([(item.fields[0].0, result)] + item.fields[1..]);
    }
  }

  /** Every element of a list of hits or fetched documents, in place. */
  method ShapeHitsInPlace(hits: seq<Json>, v: View) returns (shaped: seq<Json>)
    ensures shaped == HitsShaped(hits, v)
  {
    shaped := hits;
    for i := 0 to |hits|
      invariant |shaped| == |hits|
      invariant forall k :: 0 <= k < i ==> shaped[k] == HitShaped(hits[k], v)
      invariant forall k :: i <= k < |hits| ==> shaped[k] == hits[k]
    {
      var hit := ShapeHitInPlace(shaped[i], v);
      shaped := shaped[i := hit];
    }
  }

  method ShapeSearchInPlace(response: Json, v: View) returns (shaped: Json)
    ensures shaped == SearchShaped(response, v)
  {
    var inner := InnerHits(response);
    if inner.None? {
      return response;
    }
    var hits := ShapeHitsInPlace(inner.value.1, v);
    shaped := Obj(Insert(response.fields, "hits", WithArray(inner.value.0, "hits", hits)));
  }

  method ShapeBulkResponse(v: View, body: string) returns (r: Result<string, PrepareError>)
    ensures r == ShapeBulk(v, body)
  {
    var top := Parse(body);
    if top.None? {
      return Err(RewriteFailed(InvalidJson));
    }
    var found := ArrayAt(top.value, "items");
    if found.None? {
      return Ok(Print(top.value));
    }
    var items := found.value;
    for i := 0 to |items|
      invariant |items| == |found.value|
      invariant forall k :: 0 <= k < i ==> items[k] == ItemShaped(found.value[k], v)
      invariant forall k :: i <= k < |items| ==> items[k] == found.value[k]
    {
      var item := ShapeItemInPlace(items[i], v);
      items := items[i := item];
    }
    assert items == ItemsShaped(found.value, v);
    r := Ok(Print(WithArray(top.value, "items", items)));
  }

  method ShapeMgetResponse(v: View, body: string) returns (r: Result<string, PrepareError>)
    ensures r == ShapeMget(v, body)
  {
    var top := Parse(body);
    if top.None? {
      return Err(RewriteFailed(InvalidJson));
    }
    var docs := ArrayAt(top.value, "docs");
    if docs.None? {
      return Ok(Print(top.value));
    }
    var shaped := ShapeHitsInPlace(docs.value, v);
    r := Ok(Print(WithArray(top.value, "docs", shaped)));
  }

  method ShapeMsearchResponse(v: View, body: string) returns (r: Result<string, PrepareError>)
    ensures r == ShapeMsearch(v, body)
  {
    var top := Parse(body);
    if top.None? {
      return Err(RewriteFailed(InvalidJson));
    }
    var found := ArrayAt(top.value, "responses");
    if found.None? {
      return Ok(Print(top.value));
    }
    var rs := found.value;
    for i := 0 to |rs|
      invariant |rs| == |found.value|
      invariant forall k :: 0 <= k < i ==> rs[k] == SearchShaped(found.value[k], v)
      invariant forall k :: i <= k < |rs| ==> rs[k] == found.value[k]
    {
      var shaped := ShapeSearchInPlace(rs[i], v);
      rs := rs[i := shaped];
    }
    assert rs == ResponsesShaped(found.value, v);
    r := Ok(Print(WithArray(top.value, "responses", rs)));
  }

  // ----- shaping inverts the write transform -----

  /** An answer about a stored document: its id is the physical id of `logical` and its
      source, when present, is `source` with the decision's fields injected. Everything
      else in it is arbitrary. */
  predicate AboutStored(fs: Fields, p: Resolved, logical: string, source: Option<Fields>) {
    && Get(fs, "_id").Some? && Get(fs, "_id").value.Str?
    && MapId(p.transform, p.partition, logical) == Ok(Get(fs, "_id").value.s)
    && ResolveValues(p.transform.Injected(), p.partition).Ok?
    && match source
       case None => !Has(fs, "_source")
       case Some(src) =>
         var injected := ResolveValues(p.transform.Injected(), p.partition).value;
         AddFields(src, injected).Ok?
         && Get(fs, "_source") == Some(Obj(AddFields(src, injected).value))
  }

  /** The same answer about the client's own document. */
  function ClientFields(fs: Fields, index: string, logical: string, source: Option<Fields>): Fields {
    var named := Insert(Insert(fs, "_index", Str(index)), "_id", Str(logical));
    if source.Some? then Insert(named, "_source", Obj(source.value)) else named
  }

  lemma {:induction false} InsertSame(fs: Fields, key: string, v: Json)
    requires Get(fs, key) == Some(v)
    ensures Insert(fs, key, v) == fs
  {
    if fs[0].0 != key { InsertSame(fs[1..], key, v); }
  }

  lemma {:induction false} ResolvedNames(fields: seq<InjectedField>, partition: string)
    requires ResolveValues(fields, partition).Ok?
    ensures Names(ResolveValues(fields, partition).value) == FieldNames(fields)
  {
    if fields != [] {
      ResolvedNames(fields[1..], partition);
      var r := ResolveValues(fields, partition).value;
      assert r[1..] == ResolveValues(fields[1..], partition).value;
    }
  }

  /** One answer: id unmapped, injected fields gone, the rest of the answer and the order of
      its fields untouched. */
  lemma HitInverse(fs: Fields, p: Resolved, logical: string, source: Option<Fields>, index: string)
    requires AboutStored(fs, p, logical, source)
    ensures HitShaped(Obj(fs), ViewOf(p, index)) == Obj(ClientFields(fs, index, logical, source))
  {
    var v := ViewOf(p, index);
    var physical := Get(fs, "_id").value.s;
    var named := Insert(fs, "_index", Str(index));
    GetInsert(fs, "_index", Str(index), "_id");
    GetInsert(fs, "_index", Str(index), "_source");
    match p.transform.Rule() {
      case Some(rule) =>
        UnmapMapped(rule.template, p.partition, logical);
        assert LogicalId(v, Get(named, "_id")) == Some(logical);
      case None =>
        assert physical == logical;
        InsertSame(named, "_id", Str(logical));
    }
    var unmapped := IdUnmapped(named, v);
    assert unmapped == Insert(named, "_id", Str(logical));
    GetInsert(named, "_id", Str(logical), "_source");
    if source.Some? {
      var injected := ResolveValues(p.transform.Injected(), p.partition).value;
      ResolvedNames(p.transform.Injected(), p.partition);
      StripAdded(source.value, injected);
    }
  }

  /** What the client sees of the other fields is what the upstream said. */
  lemma SiblingsKept(fs: Fields, index: string, logical: string, source: Option<Fields>, key: string)
    requires key != "_index" && key != "_id" && key != "_source"
    ensures Get(ClientFields(fs, index, logical, source), key) == Get(fs, key)
  {
    var a := Insert(fs, "_index", Str(index));
    GetInsert(fs, "_index", Str(index), key);
    GetInsert(a, "_id", Str(logical), key);
    if source.Some? { GetInsert(Insert(a, "_id", Str(logical)), "_source", Obj(source.value), key); }
  }

  /** Every list of stored documents comes back as the client's list: same length, same
      order, element by element the client's answer. */
  lemma HitsInverse(hits: seq<Json>, p: Resolved, index: string,
                    logicals: seq<string>, sources: seq<Option<Fields>>)
    requires |hits| == |logicals| == |sources|
    requires forall i :: 0 <= i < |hits| ==>
               hits[i].Obj? && AboutStored(hits[i].fields, p, logicals[i], sources[i])
    ensures |HitsShaped(hits, ViewOf(p, index))| == |hits|
    ensures forall i :: 0 <= i < |hits| ==>
              HitsShaped(hits, ViewOf(p, index))[i]
              == Obj(ClientFields(hits[i].fields, index, logicals[i], sources[i]))
  {
    forall i | 0 <= i < |hits|
      ensures HitShaped(hits[i], ViewOf(p, index))
              == Obj(ClientFields(hits[i].fields, index, logicals[i], sources[i]))
    {
      HitInverse(hits[i].fields, p, logicals[i], sources[i], index);
    }
  }

  // ----- results of bulk items -----

  /** A result about a stored document: its id is the physical id of `logical`. Everything else in
      it is arbitrary. */
  predicate AboutItem(fs: Fields, p: Resolved, logical: string) {
    && Get(fs, "_id").Some? && Get(fs, "_id").value.Str?
    && MapId(p.transform, p.partition, logical) == Ok(Get(fs, "_id").value.s)
  }

  /** The same result about the client's own document. */
  function ClientResult(fs: Fields, index: string, logical: string): Fields {
    Insert(if Has(fs, "_index") then Insert(fs, "_index", Str(index)) else fs, "_id", Str(logical))
  }

  /** One result, successful or not: index renamed, id unmapped, the rest and the order of its
      fields untouched. */
  lemma ResultInverse(fs: Fields, p: Resolved, logical: string, index: string)
    requires AboutItem(fs, p, logical)
    ensures ResultShaped(Obj(fs), ViewOf(p, index)) == Obj(ClientResult(fs, index, logical))
  {
    var v := ViewOf(p, index);
    var named := if Has(fs, "_index") then Insert(fs, "_index", Str(index)) else fs;
    GetInsert(fs, "_index", Str(index), "_id");
    match p.transform.Rule() {
      case Some(rule) =>
        UnmapMapped(rule.template, p.partition, logical);
        assert LogicalId(v, Get(named, "_id")) == Some(logical);
      case None => InsertSame(named, "_id", Str(logical));
    }
  }

  /** What the client sees of a result: its own index, where one is named, its own id, and of every
      other field what the upstream said. */
  lemma ClientResultFields(fs: Fields, index: string, logical: string, key: string)
    ensures Get(ClientResult(fs, index, logical), key) ==
            if key == "_id" then Some(Str(logical))
            else if key == "_index" && Has(fs, "_index") then Some(Str(index))
            else Get(fs, key)
  {
    var named := if Has(fs, "_index") then Insert(fs, "_index", Str(index)) else fs;
    GetInsert(fs, "_index", Str(index), key);
    GetInsert(named, "_id", Str(logical), key);
  }

  /** A bulk item: a result under its verb. */
  predicate ItemAbout(item: Json, p: Resolved, logical: string) {
    item.Obj? && item.fields != [] && item.fields[0].1.Obj? && AboutItem(item.fields[0].1.fields, p, logical)
  }

  function ClientItem(item: Json, p: Resolved, index: string, logical: string): Json
    requires ItemAbout(item, p, logical)
  {
    Obj([(item.fields[0].0, Obj(ClientResult(item.fields[0].1.fields, index, logical)))] + item.fields[1..])
  }

  /** Every list of results comes back as the client's list: same length, same order, each under
      the verb it had. */
  lemma ItemsInverse(items: seq<Json>, p: Resolved, index: string, logicals: seq<string>)
    requires |items| == |logicals| && forall i :: 0 <= i < |items| ==> ItemAbout(items[i], p, logicals[i])
    ensures |ItemsShaped(items, ViewOf(p, index))| == |items|
    ensures forall i :: 0 <= i < |items| ==>
              ItemsShaped(items, ViewOf(p, index))[i] == ClientItem(items[i], p, index, logicals[i])
  {
    forall i | 0 <= i < |items|
      ensures ItemShaped(items[i], ViewOf(p, index)) == ClientItem(items[i], p, index, logicals[i])
    {
      ResultInverse(items[i].fields[0].1.fields, p, logicals[i], index);
    }
  }

  // ----- one fetched document -----

  /** A fetched document is shown under the id that was asked for, whatever else the answer holds;
      a miss, which has no source, likewise. */
  lemma GetInverse(fs: Fields, p: Resolved, logical: string, source: Option<Fields>, index: string)
    requires AboutStored(fs, p, logical, source)
    ensures GetShaped(Obj(fs), ViewOf(p, index), logical) == Obj(ClientFields(fs, index, logical, source))
  {
    var v := ViewOf(p, index);
    var named := Insert(fs, "_index", Str(index));
    HitInverse(fs, p, logical, source, index);
    ClientId(fs, index, logical, source);
    StrippedId(IdUnmapped(named, v), v.names);
    MgetAgreesWithGetIff(fs, v, logical);
  }

  lemma ClientId(fs: Fields, index: string, logical: string, source: Option<Fields>)
    ensures Get(ClientFields(fs, index, logical, source), "_id") == Some(Str(logical))
  {
    var a := Insert(fs, "_index", Str(index));
    GetInsert(a, "_id", Str(logical), "_id");
    if source.Some? { GetInsert(Insert(a, "_id", Str(logical)), "_source", Obj(source.value), "_id"); }
  }

  /** Shaping a fetched document as an mget entry and as a get answer agree exactly when the
      document's own id unmaps to the id that was asked for. */
  lemma MgetAgreesWithGetIff(fs: Fields, v: View, logicalId: string)
    ensures HitShaped(Obj(fs), v) == GetShaped(Obj(fs), v, logicalId)
            <==> Get(IdUnmapped(Insert(fs, "_index", Str(v.index)), v), "_id") == Some(Str(logicalId))
  {
    var named := Insert(fs, "_index", Str(v.index));
    var a, b := IdUnmapped(named, v), Insert(named, "_id", Str(logicalId));
    GetInsert(named, "_id", Str(logicalId), "_id");
    if Get(a, "_id") == Some(Str(logicalId)) {
      InsertSame(a, "_id", Str(logicalId));
      var logical := LogicalId(v, Get(named, "_id"));
      if logical.Some? {
        GetInsert(named, "_id", Str(logical.value), "_id");
      } else {
        InsertSame(named, "_id", Str(logicalId));
      }
    } else {
      StrippedId(a, v.names);
      StrippedId(b, v.names);
    }
  }

  lemma StrippedId(fs: Fields, names: seq<string>)
    ensures Get(SourceStripped(fs, names), "_id") == Get(fs, "_id")
  {
    var source := Get(fs, "_source");
    if source.Some? { GetInsert(fs, "_source", StripFields(source.value, names), "_id"); }
  }
}
