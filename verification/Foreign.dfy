/** Answers shaped for another request than the one that was served: what the response phase
    makes of a tenant's answer when it reads the request's path with the tenant still in it. */
module Foreign {
  import opened Common
  import opened Json
  import opened Ndjson
  import opened Adapter
  import opened Transform
  import opened Response
  import opened Route
  import opened Shared
  import opened Wire
  import opened Replies
  import opened Runs
  import opened Raw
  import Engine

  /** The upstream's answer to a tenant's operation. */
  function Upstream(sc: Scope, t: string, a: Engine.Answer<string>): Json {
    Engine.AnswerJson(PhysicalAnswer(sc, t, a), PhysicalNaming())
  }

  function RawText(sc: Scope, t: string, a: Engine.Answer<string>): string {
    Print(Upstream(sc, t, a))
  }

  /** The text shown when the response is shaped for the request `r`. */
  function ShownText(sc: Scope, t: string, r: Ctx, a: Engine.Answer<string>): string {
    match sc.tenancy.ResolvePartition(r)
    case Err(_) => RawText(sc, t, a)
    case Ok(partition) =>
      var naming := ForeignNaming(sc, t, partition, r.logicalIndex);
      match r.endpoint
      case GetById =>
        if r.docId.None? then RawText(sc, t, a)
        else if a.Fetched? then DocText((r.logicalIndex, r.docId.value), a.doc)
        else Print(GetShaped(Upstream(sc, t, a), ViewOf(sc.tenancy.Decide(partition, r.logicalIndex), r.logicalIndex),
                             r.docId.value))
      case MultiGet => if a.FetchedMany? then TextOf(a, naming) else RawText(sc, t, a)
      case IngestBulk => if a.BatchDone? then TextOf(a, naming) else RawText(sc, t, a)
      case _ => RawText(sc, t, a)
  }

  // ----- the upstream's answers -----

  lemma GetOne(f: (string, Json), key: string)
    ensures Get([f], key) == if f.0 == key then Some(f.1) else None
  {
    assert [f][1..] == [];
  }

  lemma GetTwo(f: (string, Json), g: (string, Json), key: string)
    ensures Get([f, g], key) == if f.0 == key then Some(f.1) else if g.0 == key then Some(g.1) else None
  {
    assert [f, g] == [f] + [g];
    GetConcat([f], [g], key);
    GetOne(f, key);
    GetOne(g, key);
  }

  lemma FetchedKeys(name: (string, string), doc: Option<Json>, key: string)
    requires key !in {"_index", "_id", "found", "_source"}
    ensures Get(Engine.DocFields(name, doc), key) == None
  {
    var index, id, found := ("_index", Str(name.0)), ("_id", Str(name.1)), ("found", Bool(doc.Some?));
    var source := if doc.Some? then [("_source", doc.value)] else [];
    if doc.Some? { GetOne(("_source", doc.value), key); }
    assert [index, id, found] == [index, id] + [found];
    GetTwo(index, id, key);
    GetOne(found, key);
    GetConcat([index, id], [found], key);
    GetConcat([index, id, found], source, key);
  }

  lemma BatchKeys(items: seq<Json>, key: string)
    ensures Engine.BatchJson(items).Obj?
    ensures Get(Engine.BatchJson(items).fields, key) ==
            if key == "took" then Some(Num("0")) else if key == "items" then Some(Arr(items)) else None
  {
    GetTwo(("took", Num("0")), ("items", Arr(items)), key);
  }

  /** The upstream's answer is well formed, and holds no list but its own. */
  predicate Upright(top: Json, key: string) {
    && Valid(top) && top.Obj? && InnerHits(top) == None && ArrayAt(top, "responses") == None
    && (key != "docs" ==> ArrayAt(top, "docs") == None) && (key != "items" ==> ArrayAt(top, "items") == None)
  }

  lemma FetchedIs(sc: Scope, t: string, x: string, doc: Option<Json>)
    requires StorableOption(sc, doc)
    ensures Upright(Upstream(sc, t, Engine.Fetched(x, doc)), "")
  {
    StampShows(sc, t, doc);
    var name := PhysicalNaming()(sc.KeyOf(t, x));
    DocValid(name, StampOption(sc, t, doc));
    FetchedKeys(name, StampOption(sc, t, doc), "docs");
    FetchedKeys(name, StampOption(sc, t, doc), "items");
    FetchedKeys(name, StampOption(sc, t, doc), "responses");
    FetchedKeys(name, StampOption(sc, t, doc), "hits");
  }

  lemma DocsUpright(xs: seq<Json>)
    requires ValidItems(xs)
    ensures Upright(Obj([("docs", Arr(xs))]), "docs") && ArrayAt(Obj([("docs", Arr(xs))]), "docs") == Some(xs)
  {
    OneField(("docs", Arr(xs)));
    GetOne(("docs", Arr(xs)), "docs");
    GetOne(("docs", Arr(xs)), "items");
    GetOne(("docs", Arr(xs)), "responses");
    GetOne(("docs", Arr(xs)), "hits");
  }

  lemma FetchedManyIs(sc: Scope, t: string, docs: seq<(string, Option<Json>)>)
    requires StorableDocs(sc, docs)
    ensures Upright(Upstream(sc, t, Engine.FetchedMany(docs)), "docs")
    ensures ValidItems(Engine.DocsJson(PhysicalDocs(sc, t, docs), PhysicalNaming()))
  {
    StoredValid(sc, t, docs);
    DocsValid(PhysicalDocs(sc, t, docs), PhysicalNaming());
    DocsUpright(Engine.DocsJson(PhysicalDocs(sc, t, docs), PhysicalNaming()));
  }

  lemma BatchUpright(xs: seq<Json>)
    requires ValidItems(xs)
    ensures Upright(Engine.BatchJson(xs), "items")
  {
    BatchJsonArray(xs, xs);
    BatchKeys(xs, "docs");
    BatchKeys(xs, "responses");
    BatchKeys(xs, "hits");
  }

  lemma BatchIs(sc: Scope, t: string, os: seq<Engine.Outcome<string>>)
    ensures Upright(Upstream(sc, t, Engine.BatchDone(os)), "items")
    ensures ValidItems(Engine.OutcomesJson(PhysicalOutcomes(sc, t, os), PhysicalNaming()))
  {
    OutcomesValid(PhysicalOutcomes(sc, t, os), PhysicalNaming());
    BatchUpright(Engine.OutcomesJson(PhysicalOutcomes(sc, t, os), PhysicalNaming()));
  }

  /** The list an answer holds. */
  function ListKey(a: Engine.Answer<string>): string {
    if a.FetchedMany? then "docs" else if a.BatchDone? then "items" else ""
  }

  lemma UpstreamUpright(sc: Scope, t: string, a: Engine.Answer<string>)
    requires Readable(sc, a)
    ensures Upright(Upstream(sc, t, a), ListKey(a))
  {
    match a
    case Fetched(x, doc) => FetchedIs(sc, t, x, doc);
    case FetchedMany(docs) => FetchedManyIs(sc, t, docs);
    case BatchDone(os) => BatchIs(sc, t, os);
  }

  // ----- what shaping makes of them -----

  /** A text whose expected array is missing is printed again as it is. */
  lemma MissingKept(v: View, top: Json)
    requires Valid(top)
    ensures InnerHits(top) == None ==> ShapeSearch(v, Print(top)) == Ok(Print(top))
    ensures ArrayAt(top, "items") == None ==> ShapeBulk(v, Print(top)) == Ok(Print(top))
    ensures ArrayAt(top, "docs") == None ==> ShapeMget(v, Print(top)) == Ok(Print(top))
    ensures ArrayAt(top, "responses") == None ==> ShapeMsearch(v, Print(top)) == Ok(Print(top))
    ensures forall d :: ShapeGet(v, d, Print(top)) == Ok(Print(GetShaped(top, v, d)))
  {
    ParsePrint(top);
  }

  lemma ShapeIs(sc: Scope, r: Ctx, partition: string, body: string)
    requires sc.tenancy.ResolvePartition(r) == Ok(partition)
    ensures var v := ViewOf(sc.tenancy.Decide(partition, r.logicalIndex), r.logicalIndex);
            ShapeReadResponse(sc.tenancy.AsRouter(), r, body) ==
            match r.endpoint
            case GetById => if r.docId.None? then None else OkText(ShapeGet(v, r.docId.value, body))
            case Search => OkText(ShapeSearch(v, body))
            case IngestBulk => OkText(ShapeBulk(v, body))
            case MultiGet => OkText(ShapeMget(v, body))
            case MultiSearch => OkText(ShapeMsearch(v, body))
            case _ => None
  {
  }

  /** What the client is shown of a tenant's answer shaped for `r`. */
  ghost predicate Shows(sc: Scope, t: string, r: Ctx, a: Engine.Answer<string>) {
    ClientBody(sc.tenancy.AsRouter(), r, RawText(sc, t, a)) == ShownText(sc, t, r, a)
  }

  /** Shaped for a request of another kind, a list is printed again as it is. */
  lemma KeptShows(sc: Scope, t: string, r: Ctx, a: Engine.Answer<string>)
    requires Readable(sc, a) && !(r.endpoint.GetById? && r.docId.Some?)
    requires !(r.endpoint.MultiGet? && a.FetchedMany?) && !(r.endpoint.IngestBulk? && a.BatchDone?)
    ensures Shows(sc, t, r, a)
  {
    UpstreamUpright(sc, t, a);
    if sc.tenancy.ResolvePartition(r).Ok? {
      var partition := sc.tenancy.ResolvePartition(r).value;
      MissingKept(ViewOf(sc.tenancy.Decide(partition, r.logicalIndex), r.logicalIndex), Upstream(sc, t, a));
      ShapeIs(sc, r, partition, RawText(sc, t, a));
    }
  }

  lemma GetShows(sc: Scope, t: string, r: Ctx, a: Engine.Answer<string>)
    requires sc.Sound() && Readable(sc, a) && r.endpoint.GetById? && r.docId.Some?
    ensures Shows(sc, t, r, a)
  {
    UpstreamUpright(sc, t, a);
    if sc.tenancy.ResolvePartition(r).Ok? {
      var partition := sc.tenancy.ResolvePartition(r).value;
      MissingKept(ViewOf(sc.tenancy.Decide(partition, r.logicalIndex), r.logicalIndex), Upstream(sc, t, a));
      ShapeIs(sc, r, partition, RawText(sc, t, a));
      if a.Fetched? {
        AnyGetShaped(sc, t, partition, r.logicalIndex, r.docId.value, PhysicalNaming()(sc.KeyOf(t, a.key)), a.doc);
      }
    }
  }

  lemma MgetAgain(v: View, docs: seq<Json>, now: seq<Json>)
    requires ValidItems(docs) && HitsShaped(docs, v) == now
    ensures ShapeMget(v, Print(Obj([("docs", Arr(docs))]))) == Ok(Print(Obj([("docs", Arr(now))])))
  {
    OneField(("docs", Arr(docs)));
    OneArray("docs", docs, now);
    ShapePrinted(v, Obj([("docs", Arr(docs))]), "docs", docs);
  }

  lemma MgetShaping(sc: Scope, t: string, v: View, naming: Engine.Naming<string>, docs: seq<(string, Option<Json>)>)
    requires StorableDocs(sc, docs)
    requires HitsShaped(Engine.DocsJson(PhysicalDocs(sc, t, docs), PhysicalNaming()), v) == Engine.DocsJson(docs, naming)
    ensures ShapeMget(v, RawText(sc, t, Engine.FetchedMany(docs))) == Ok(TextOf(Engine.FetchedMany(docs), naming))
  {
    FetchedManyIs(sc, t, docs);
    MgetAgain(v, Engine.DocsJson(PhysicalDocs(sc, t, docs), PhysicalNaming()), Engine.DocsJson(docs, naming));
  }

  lemma BatchTexts(sc: Scope, t: string, naming: Engine.Naming<string>, os: seq<Engine.Outcome<string>>)
    ensures RawText(sc, t, Engine.BatchDone(os)) ==
            Print(Engine.BatchJson(Engine.OutcomesJson(PhysicalOutcomes(sc, t, os), PhysicalNaming())))
    ensures TextOf(Engine.BatchDone(os), naming) == Print(Engine.BatchJson(Engine.OutcomesJson(os, naming)))
  {
  }

  lemma BatchShaping(sc: Scope, t: string, v: View, naming: Engine.Naming<string>, os: seq<Engine.Outcome<string>>)
    requires ItemsShaped(Engine.OutcomesJson(PhysicalOutcomes(sc, t, os), PhysicalNaming()), v)
             == Engine.OutcomesJson(os, naming)
    ensures ShapeBulk(v, RawText(sc, t, Engine.BatchDone(os))) == Ok(TextOf(Engine.BatchDone(os), naming))
  {
    var was, now := Engine.OutcomesJson(PhysicalOutcomes(sc, t, os), PhysicalNaming()), Engine.OutcomesJson(os, naming);
    OutcomesValid(PhysicalOutcomes(sc, t, os), PhysicalNaming());
    BatchAnswerShaped(v, was, now);
    BatchTexts(sc, t, naming, os);
  }

  lemma ListShape(sc: Scope, r: Ctx, partition: string, body: string)
    requires sc.tenancy.ResolvePartition(r) == Ok(partition)
    ensures var v := ViewOf(sc.tenancy.Decide(partition, r.logicalIndex), r.logicalIndex);
            && (r.endpoint.MultiGet? ==>
                  ShapeReadResponse(sc.tenancy.AsRouter(), r, body) == OkText(ShapeMget(v, body)))
            && (r.endpoint.IngestBulk? ==>
                  ShapeReadResponse(sc.tenancy.AsRouter(), r, body) == OkText(ShapeBulk(v, body)))
  {
    ShapeIs(sc, r, partition, body);
  }

  lemma MgetShown(sc: Scope, t: string, r: Ctx, partition: string, a: Engine.Answer<string>)
    requires sc.tenancy.ResolvePartition(r) == Ok(partition) && r.endpoint.MultiGet? && a.FetchedMany?
    ensures ShownText(sc, t, r, a) == TextOf(a, ForeignNaming(sc, t, partition, r.logicalIndex))
  {
  }

  /** Shaped for a request of the same kind, a list keeps its documents under other names. */
  lemma MgetShows(sc: Scope, t: string, r: Ctx, a: Engine.Answer<string>)
    requires sc.Sound() && Readable(sc, a) && r.endpoint.MultiGet? && a.FetchedMany?
    ensures Shows(sc, t, r, a)
  {
    if sc.tenancy.ResolvePartition(r).Ok? {
      var partition := sc.tenancy.ResolvePartition(r).value;
      var naming := ForeignNaming(sc, t, partition, r.logicalIndex);
      ListShape(sc, r, partition, RawText(sc, t, a));
      ForeignHits(sc, t, partition, r.logicalIndex, a.docs);
      MgetShaping(sc, t, ViewOf(sc.tenancy.Decide(partition, r.logicalIndex), r.logicalIndex), naming, a.docs);
      MgetShown(sc, t, r, partition, a);
    }
  }

  lemma BatchShows(sc: Scope, t: string, r: Ctx, a: Engine.Answer<string>)
    requires sc.Sound() && r.endpoint.IngestBulk? && a.BatchDone?
    ensures Shows(sc, t, r, a)
  {
    if sc.tenancy.ResolvePartition(r).Ok? {
      var partition := sc.tenancy.ResolvePartition(r).value;
      ShapeIs(sc, r, partition, RawText(sc, t, a));
      ForeignItems(sc, t, partition, r.logicalIndex, a.outcomes);
      BatchShaping(sc, t, ViewOf(sc.tenancy.Decide(partition, r.logicalIndex), r.logicalIndex),
                   ForeignNaming(sc, t, partition, r.logicalIndex), a.outcomes);
    }
  }

  lemma AnswerShows(sc: Scope, t: string, r: Ctx, a: Engine.Answer<string>)
    requires sc.Sound() && Readable(sc, a)
    ensures Shows(sc, t, r, a)
  {
    if r.endpoint.GetById? && r.docId.Some? {
      GetShows(sc, t, r, a);
    } else if r.endpoint.MultiGet? && a.FetchedMany? {
      MgetShows(sc, t, r, a);
    } else if r.endpoint.IngestBulk? && a.BatchDone? {
      BatchShows(sc, t, r, a);
    } else {
      KeptShows(sc, t, r, a);
    }
  }

  // ----- when that is the tenant's own text -----

  /** A list answer shaped as one document has gained an index, which the tenant's own text has
      not. */
  lemma ListAsDocument(v: View, d: string, top: Json, own: Json)
    requires Valid(top) && top.Obj? && Valid(own) && own.Obj?
    requires Get(top.fields, "_source") == None && Get(own.fields, "_index") == None
    ensures Print(GetShaped(top, v, d)) != Print(own)
  {
    var a := Insert(top.fields, "_index", Str(v.index));
    var b := Insert(a, "_id", Str(d));
    InsertValid(top.fields, "_index", Str(v.index));
    InsertValid(a, "_id", Str(d));
    GetInsert(top.fields, "_index", Str(v.index), "_source");
    GetInsert(a, "_id", Str(d), "_source");
    GetInsert(top.fields, "_index", Str(v.index), "_index");
    GetInsert(a, "_id", Str(d), "_index");
    assert GetShaped(top, v, d) == Obj(b);
    PrintInjective(Obj(b), own);
  }

  /** The operation, answered and shaped for `r`, shows the tenant's own text. Checked before the
      call, of the request, the operation and the tenant's own store. */
  predicate TextAlike(sc: Scope, t: string, r: Ctx, index: string, own: Own, op: Engine.Op<string>) {
    match sc.tenancy.ResolvePartition(r)
    case Err(_) => RawAlike(sc, t, index, own, op)
    case Ok(partition) =>
      var naming := ForeignNaming(sc, t, partition, r.logicalIndex);
      match r.endpoint
      case GetById =>
        if r.docId.None? then RawAlike(sc, t, index, own, op)
        else op.Fetch? && r.logicalIndex == index && r.docId == Some(op.key)
      case MultiGet =>
        if op.FetchMany? then NamedSame(op, naming, LogicalNaming(index)) else RawAlike(sc, t, index, own, op)
      case IngestBulk =>
        if op.Batch? then NamedSame(op, naming, LogicalNaming(index)) else RawAlike(sc, t, index, own, op)
      case _ => RawAlike(sc, t, index, own, op)
  }

  predicate Answers(op: Engine.Op<string>) {
    op.Fetch? || op.FetchMany? || op.Batch?
  }

  lemma RawCase(sc: Scope, t: string, index: string, own: Own, op: Engine.Op<string>)
    requires sc.Sound() && Answers(op) && Readable(sc, Engine.Exec(own, op).1)
    ensures RawText(sc, t, Engine.Exec(own, op).1) == TextOf(Engine.Exec(own, op).1, LogicalNaming(index))
            <==> RawAlike(sc, t, index, own, op)
  {
    RawTextIff(sc, t, index, Engine.Exec(own, op).1);
    RawAlikeAnswered(sc, t, index, own, op);
  }

  lemma NamedCase(sc: Scope, index: string, own: Own, op: Engine.Op<string>, naming: Engine.Naming<string>)
    requires Answers(op) && Readable(sc, Engine.Exec(own, op).1)
    ensures TextOf(Engine.Exec(own, op).1, naming) == TextOf(Engine.Exec(own, op).1, LogicalNaming(index))
            <==> NamedSame(op, naming, LogicalNaming(index))
  {
    NamingTextIff(sc, Engine.Exec(own, op).1, naming, LogicalNaming(index));
    AgreeAnswered(own, op, naming, LogicalNaming(index));
  }

  lemma GetCase(sc: Scope, t: string, v: View, d: string, index: string, own: Own, op: Engine.Op<string>)
    requires sc.Sound() && Answers(op) && !op.Fetch? && Readable(sc, Engine.Exec(own, op).1)
    ensures Print(GetShaped(Upstream(sc, t, Engine.Exec(own, op).1), v, d))
            != TextOf(Engine.Exec(own, op).1, LogicalNaming(index))
  {
    var a := Engine.Exec(own, op).1;
    match a
    case FetchedMany(docs) => MgetAsDocument(sc, t, v, d, index, docs);
    case BatchDone(os) => BatchAsDocument(sc, t, v, d, index, os);
  }

  lemma MgetAsDocument(sc: Scope, t: string, v: View, d: string, index: string, docs: seq<(string, Option<Json>)>)
    requires StorableDocs(sc, docs)
    ensures Print(GetShaped(Upstream(sc, t, Engine.FetchedMany(docs)), v, d)) != MgetText(docs, LogicalNaming(index))
  {
    var was := Engine.DocsJson(PhysicalDocs(sc, t, docs), PhysicalNaming());
    var own := Engine.DocsJson(docs, LogicalNaming(index));
    FetchedManyIs(sc, t, docs);
    StoredValid(sc, t, docs);
    DocsValid(docs, LogicalNaming(index));
    OneField(("docs", Arr(own)));
    GetOne(("docs", Arr(own)), "_index");
    GetOne(("docs", Arr(was)), "_source");
    ListAsDocument(v, d, Obj([("docs", Arr(was))]), Obj([("docs", Arr(own))]));
  }

  lemma BatchAsDocument(sc: Scope, t: string, v: View, d: string, index: string, os: seq<Engine.Outcome<string>>)
    ensures Print(GetShaped(Upstream(sc, t, Engine.BatchDone(os)), v, d)) != BatchText(os, LogicalNaming(index))
  {
    var was := Engine.OutcomesJson(PhysicalOutcomes(sc, t, os), PhysicalNaming());
    var own := Engine.OutcomesJson(os, LogicalNaming(index));
    BatchIs(sc, t, os);
    OutcomesValid(os, LogicalNaming(index));
    BatchUpright(own);
    BatchKeys(own, "_index");
    BatchKeys(was, "_source");
    ListAsDocument(v, d, Engine.BatchJson(was), Engine.BatchJson(own));
  }

  lemma DocumentCase(sc: Scope, t: string, r: Ctx, index: string, own: Own, op: Engine.Op<string>)
    requires sc.Sound() && Answers(op) && Readable(sc, Engine.Exec(own, op).1)
    requires r.endpoint.GetById? && r.docId.Some? && sc.tenancy.ResolvePartition(r).Ok?
    ensures ShownText(sc, t, r, Engine.Exec(own, op).1) == TextOf(Engine.Exec(own, op).1, LogicalNaming(index))
            <==> op.Fetch? && r.logicalIndex == index && r.docId == Some(op.key)
  {
    var a := Engine.Exec(own, op).1;
    if op.Fetch? {
      StampShows(sc, t, a.doc);
      DocTextsIff((r.logicalIndex, r.docId.value), a.doc, (index, op.key), a.doc);
    } else {
      var partition := sc.tenancy.ResolvePartition(r).value;
      GetCase(sc, t, ViewOf(sc.tenancy.Decide(partition, r.logicalIndex), r.logicalIndex), r.docId.value, index, own, op);
    }
  }

  /** The shown text is the tenant's own exactly when `TextAlike` says so. */
  predicate Decided(sc: Scope, t: string, r: Ctx, index: string, own: Own, op: Engine.Op<string>) {
    ShownText(sc, t, r, Engine.Exec(own, op).1) == TextOf(Engine.Exec(own, op).1, LogicalNaming(index))
    <==> TextAlike(sc, t, r, index, own, op)
  }

  /** The operation is answered by a list of the kind the request is shaped as. */
  predicate SameKind(r: Ctx, op: Engine.Op<string>) {
    (r.endpoint.MultiGet? && op.FetchMany?) || (r.endpoint.IngestBulk? && op.Batch?)
  }

  lemma NamedDecided(sc: Scope, t: string, r: Ctx, index: string, own: Own, op: Engine.Op<string>)
    requires sc.Sound() && Answers(op) && Readable(sc, Engine.Exec(own, op).1)
    requires sc.tenancy.ResolvePartition(r).Ok? && SameKind(r, op)
    ensures Decided(sc, t, r, index, own, op)
  {
    var naming := ForeignNaming(sc, t, sc.tenancy.ResolvePartition(r).value, r.logicalIndex);
    NamedCase(sc, index, own, op, naming);
    NamedText(sc, t, r, own, op);
    NamedAlikeIs(sc, t, r, index, own, op);
  }

  lemma NamedText(sc: Scope, t: string, r: Ctx, own: Own, op: Engine.Op<string>)
    requires sc.tenancy.ResolvePartition(r).Ok? && SameKind(r, op)
    ensures ShownText(sc, t, r, Engine.Exec(own, op).1)
            == TextOf(Engine.Exec(own, op).1, ForeignNaming(sc, t, sc.tenancy.ResolvePartition(r).value, r.logicalIndex))
  {
  }

  lemma NamedAlikeIs(sc: Scope, t: string, r: Ctx, index: string, own: Own, op: Engine.Op<string>)
    requires sc.tenancy.ResolvePartition(r).Ok? && SameKind(r, op)
    ensures TextAlike(sc, t, r, index, own, op) <==>
            NamedSame(op, ForeignNaming(sc, t, sc.tenancy.ResolvePartition(r).value, r.logicalIndex), LogicalNaming(index))
  {
  }

  lemma RawDecided(sc: Scope, t: string, r: Ctx, index: string, own: Own, op: Engine.Op<string>)
    requires sc.Sound() && Answers(op) && Readable(sc, Engine.Exec(own, op).1)
    requires sc.tenancy.ResolvePartition(r).Err? || !(SameKind(r, op) || (r.endpoint.GetById? && r.docId.Some?))
    ensures Decided(sc, t, r, index, own, op)
  {
    RawCase(sc, t, index, own, op);
  }

  lemma TextAlikeIff(sc: Scope, t: string, r: Ctx, index: string, own: Own, op: Engine.Op<string>)
    requires sc.Sound() && Answers(op) && Readable(sc, Engine.Exec(own, op).1)
    ensures Decided(sc, t, r, index, own, op)
  {
    if sc.tenancy.ResolvePartition(r).Err? {
      RawDecided(sc, t, r, index, own, op);
    } else if r.endpoint.GetById? && r.docId.Some? {
      DocumentCase(sc, t, r, index, own, op);
    } else if SameKind(r, op) {
      NamedDecided(sc, t, r, index, own, op);
    } else {
      RawDecided(sc, t, r, index, own, op);
    }
  }
}
