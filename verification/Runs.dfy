/** Whole runs: any number of tenants driving one shared index through the rewriter see what
    they would see on private stores of their own. */
module Runs {
  import opened Common
  import opened Json
  import opened Rewrite
  import opened Adapter
  import opened Transform
  import opened Response
  import opened Route
  import opened Reference
  import Engine
  import opened Shared
  import opened Wire
  import opened Replies

  type Docs = map<Key, Json>
  type Privates = map<string, Private>

  /** What a client sees of one request: a refusal, the body of a shaped answer, or that a
      single write or delete was accepted (the proxy does not shape those answers). */
  datatype Seen = Refused(reply: Reply) | Shown(body: string) | Accepted

  predicate ShapedEndpoint(e: Endpoint) {
    e == GetById || e == MultiGet || e == IngestBulk
  }

  /** The body of an answer; a HEAD request has none. */
  function AnswerText<K>(head: bool, a: Engine.Answer<K>, naming: Engine.Naming<K>): string {
    if head then "" else Print(Engine.AnswerJson(a, naming))
  }

  function ClientBody(router: Router, ctx: Ctx, upstream: string): string {
    match ShapeReadResponse(router, ctx, upstream)
    case Some(shaped) => shaped
    case None => upstream
  }

  function SeenOf(e: Endpoint, body: string): Seen {
    if ShapedEndpoint(e) then Shown(body) else Accepted
  }

  /** One request through the proxy: prepared, read and executed by the upstream, and the
      answer shaped on the way back. */
  function SharedStep(router: Router, docs: Docs, ctx: Ctx): (Docs, Seen) {
    match Prepare(router, ctx)
    case Immediate(reply) => (docs, Refused(reply))
    case Upstream(f) =>
      match ReadOp(f)
      case None => (docs, Accepted)
      case Some(op) =>
        var r := Engine.Exec(docs, op);
        var text := AnswerText(f.verb == "HEAD", r.1, PhysicalNaming());
        (r.0, SeenOf(ctx.endpoint, ClientBody(router, ctx, text)))
  }

  function SharedRun(router: Router, docs: Docs, run: seq<Ctx>): (Docs, seq<Seen>)
    decreases run
  {
    if run == [] then (docs, []) else
      var first := SharedStep(router, docs, run[0]);
      var rest := SharedRun(router, first.0, run[1..]);
      (rest.0, [first.1] + rest.1)
  }

  function PrivateOf(privs: Privates, t: string): Private {
    if t in privs then privs[t] else map[]
  }

  /** The same request on its tenant's private store. */
  function PrivateStep(sc: Scope, privs: Privates, ctx: Ctx): (Privates, Seen) {
    match sc.tenancy.ResolvePartition(ctx)
    case Err(e) => (privs, Refused(SpiReply(e)))
    case Ok(t) =>
      match LogicalOp(sc, t, ctx)
      case Err(reply) => (privs, Refused(reply))
      case Ok(op) =>
        var own := Engine.Exec(PrivateOf(privs, t), op);
        var head := ctx.endpoint == GetById && ctx.verb == HEAD;
        (privs[t := own.0], SeenOf(ctx.endpoint, AnswerText(head, own.1, LogicalNaming(ctx.logicalIndex))))
  }

  function PrivateRun(sc: Scope, privs: Privates, run: seq<Ctx>): (Privates, seq<Seen>)
    decreases run
  {
    if run == [] then (privs, []) else
      var first := PrivateStep(sc, privs, run[0]);
      var rest := PrivateRun(sc, first.0, run[1..]);
      (rest.0, [first.1] + rest.1)
  }

  /** A covered request of one of the tenants, or of nobody. */
  predicate From(sc: Scope, tenants: set<string>, ctx: Ctx) {
    Covered(ctx) && match sc.tenancy.ResolvePartition(ctx)
                    case Ok(t) => t in tenants && Addressed(sc, t, ctx)
                    case Err(_) => true
  }

  // ----- one shaped answer -----

  lemma OwnDocs(sc: Scope, docs: Docs, privs: Privates, t: string, op: Engine.Op<string>)
    requires Contains(sc, docs, privs) && t in privs
    ensures match Engine.Exec(privs[t], op).1
            case Fetched(_, doc) => StorableOption(sc, doc)
            case FetchedMany(found) => StorableDocs(sc, found)
            case _ => true
  {
    match op
    case Fetch(x) => if x in privs[t] { assert Holds(privs, t, x); }
    case FetchMany(xs) =>
      forall i | 0 <= i < |xs| ensures StorableOption(sc, Engine.Lookup(privs[t], xs[i])) {
        if xs[i] in privs[t] { assert Holds(privs, t, xs[i]); }
      }
    case _ =>
  }

  lemma NoBodyToShape(v: View, x: string)
    ensures OkText(ShapeGet(v, x, "")) == None
  {
  }

  lemma GetShown(sc: Scope, t: string, ctx: Ctx, x: string, doc: Option<Json>)
    requires sc.Sound() && sc.tenancy.ResolvePartition(ctx) == Ok(t) && StorableOption(sc, doc)
    requires ctx.endpoint == GetById && ctx.docId == Some(x)
    ensures ShapeReadResponse(sc.tenancy.AsRouter(), ctx,
              Print(Engine.AnswerJson(Engine.Fetched(sc.KeyOf(t, x), StampOption(sc, t, doc)), PhysicalNaming())))
            == Some(Print(Engine.AnswerJson(Engine.Fetched(x, doc), LogicalNaming(ctx.logicalIndex))))
  {
    GetAnswerShaped(sc, t, ctx.logicalIndex, x, doc);
  }

  lemma MgetShown(sc: Scope, t: string, ctx: Ctx, docs: seq<(string, Option<Json>)>)
    requires sc.Sound() && sc.tenancy.ResolvePartition(ctx) == Ok(t) && StorableDocs(sc, docs)
    requires ctx.endpoint == MultiGet
    ensures ShapeReadResponse(sc.tenancy.AsRouter(), ctx,
              Print(Engine.AnswerJson(Engine.FetchedMany(PhysicalDocs(sc, t, docs)), PhysicalNaming())))
            == Some(Print(Engine.AnswerJson(Engine.FetchedMany(docs), LogicalNaming(ctx.logicalIndex))))
  {
    MgetShaped(sc, t, ctx.logicalIndex, docs);
  }

  lemma BulkShown(sc: Scope, t: string, ctx: Ctx, os: seq<Engine.Outcome<string>>)
    requires sc.Sound() && sc.tenancy.ResolvePartition(ctx) == Ok(t)
    requires ctx.endpoint == IngestBulk
    ensures var answers := Engine.OutcomesJson(PhysicalOutcomes(sc, t, os), PhysicalNaming());
            ShapeReadResponse(sc.tenancy.AsRouter(), ctx, Print(Engine.BatchJson(answers)))
            == Some(Print(Engine.BatchJson(Engine.OutcomesJson(os, LogicalNaming(ctx.logicalIndex)))))
  {
    BulkShaped(sc, t, ctx.logicalIndex, os);
  }

  /** The answer kind an endpoint gets. */
  predicate AnswersTo(ctx: Ctx, a: Engine.Answer<string>) {
    match ctx.endpoint
    case GetById => a.Fetched? && ctx.docId == Some(a.key)
    case MultiGet => a.FetchedMany?
    case IngestBulk => a.BatchDone?
    case _ => true
  }

  lemma AnswerShown(sc: Scope, t: string, ctx: Ctx, head: bool, a: Engine.Answer<string>)
    requires sc.Sound() && sc.tenancy.ResolvePartition(ctx) == Ok(t)
    requires ShapedEndpoint(ctx.endpoint) && AnswersTo(ctx, a) && (head ==> ctx.endpoint == GetById)
    requires match a
             case Fetched(_, doc) => StorableOption(sc, doc)
             case FetchedMany(found) => StorableDocs(sc, found)
             case _ => true
    ensures ClientBody(sc.tenancy.AsRouter(), ctx, AnswerText(head, PhysicalAnswer(sc, t, a), PhysicalNaming()))
            == AnswerText(head, a, LogicalNaming(ctx.logicalIndex))
  {
    if head {
      NoBodyToShape(ViewOf(sc.tenancy.Decide(t, ctx.logicalIndex), ctx.logicalIndex), ctx.docId.value);
    } else {
      match a
      case Fetched(x, doc) => GetShown(sc, t, ctx, x, doc);
      case FetchedMany(docs) => MgetShown(sc, t, ctx, docs);
      case BatchDone(os) => BulkShown(sc, t, ctx, os);
    }
  }

  lemma LogicalAnswers(sc: Scope, t: string, ctx: Ctx, own: Private)
    requires Covered(ctx) && LogicalOp(sc, t, ctx).Ok?
    ensures AnswersTo(ctx, Engine.Exec(own, LogicalOp(sc, t, ctx).value).1)
  {
  }

  /** The verb of the forwarded request is HEAD exactly for a HEAD by-id read. */
  lemma ForwardedHead(sc: Scope, t: string, ctx: Ctx)
    requires Covered(ctx) && sc.tenancy.ResolvePartition(ctx) == Ok(t)
    requires Prepare(sc.tenancy.AsRouter(), ctx).Upstream?
    ensures Prepare(sc.tenancy.AsRouter(), ctx).f.verb == "HEAD" <==> ctx.endpoint == GetById && ctx.verb == HEAD
  {
    var p := sc.tenancy.Decide(t, ctx.logicalIndex);
    match ctx.endpoint
    case IngestDoc => assert Prepare(sc.tenancy.AsRouter(), ctx) == WriteForward(p, ctx);
    case _ =>
  }

  // ----- one request -----

  lemma StepRefines(sc: Scope, docs: Docs, privs: Privates, ctx: Ctx)
    requires sc.Sound() && Separated(sc, privs.Keys)
    requires Represents(sc, docs, privs) && From(sc, privs.Keys, ctx)
    ensures var shared, own := SharedStep(sc.tenancy.AsRouter(), docs, ctx), PrivateStep(sc, privs, ctx);
            && Represents(sc, shared.0, own.0)
            && shared.1 == own.1
            && own.0.Keys == privs.Keys
  {
    if sc.tenancy.ResolvePartition(ctx).Ok? {
      var t := sc.tenancy.ResolvePartition(ctx).value;
      ForwardReads(sc, t, ctx);
      if LogicalOp(sc, t, ctx).Ok? {
        AcceptedStores(sc, docs, privs, t, ctx);
        AcceptedSeen(sc, docs, privs, t, ctx);
      }
    }
  }

  /** A request its tenant's own store accepts: the stores move together. */
  lemma AcceptedStores(sc: Scope, docs: Docs, privs: Privates, t: string, ctx: Ctx)
    requires Separated(sc, privs.Keys) && Represents(sc, docs, privs) && t in privs
    requires sc.tenancy.ResolvePartition(ctx) == Ok(t) && LogicalOp(sc, t, ctx).Ok?
    requires Reads(sc, t, ctx, Prepare(sc.tenancy.AsRouter(), ctx))
    ensures var shared, own := SharedStep(sc.tenancy.AsRouter(), docs, ctx), PrivateStep(sc, privs, ctx);
            Represents(sc, shared.0, own.0) && own.0.Keys == privs.Keys
  {
    OpSimulates(sc, docs, privs, t, LogicalOp(sc, t, ctx).value);
  }

  /** And the client sees the same. */
  lemma AcceptedSeen(sc: Scope, docs: Docs, privs: Privates, t: string, ctx: Ctx)
    requires sc.Sound() && Separated(sc, privs.Keys) && Represents(sc, docs, privs) && t in privs
    requires Covered(ctx) && sc.tenancy.ResolvePartition(ctx) == Ok(t) && LogicalOp(sc, t, ctx).Ok?
    requires Reads(sc, t, ctx, Prepare(sc.tenancy.AsRouter(), ctx))
    ensures SharedStep(sc.tenancy.AsRouter(), docs, ctx).1 == PrivateStep(sc, privs, ctx).1
  {
    if ShapedEndpoint(ctx.endpoint) {
      var op := LogicalOp(sc, t, ctx).value;
      SharedAnswer(sc, docs, privs, t, op);
      ForwardedHead(sc, t, ctx);
      OwnDocs(sc, docs, privs, t, op);
      LogicalAnswers(sc, t, ctx, privs[t]);
      AnswerShown(sc, t, ctx, ctx.endpoint == GetById && ctx.verb == HEAD, Engine.Exec(privs[t], op).1);
    }
  }

  lemma SharedAnswer(sc: Scope, docs: Docs, privs: Privates, t: string, op: Engine.Op<string>)
    requires Represents(sc, docs, privs) && Separated(sc, privs.Keys) && t in privs && StorableOp(sc, op)
    ensures Engine.Exec(docs, PhysicalOp(sc, t, op)).1 == PhysicalAnswer(sc, t, Engine.Exec(privs[t], op).1)
  {
    OpSimulates(sc, docs, privs, t, op);
  }

  // ----- every run -----

  /** Refinement over every run: the shared store stays the disjoint union of the private
      stores, and every client sees, request by request, exactly what its private store would
      have shown it. */
  lemma {:induction false} RunRefines(sc: Scope, docs: Docs, privs: Privates, run: seq<Ctx>)
    requires sc.Sound() && Separated(sc, privs.Keys)
    requires Represents(sc, docs, privs)
    requires forall i :: 0 <= i < |run| ==> From(sc, privs.Keys, run[i])
    ensures var shared, own := SharedRun(sc.tenancy.AsRouter(), docs, run), PrivateRun(sc, privs, run);
            && Represents(sc, shared.0, own.0)
            && shared.1 == own.1
            && own.0.Keys == privs.Keys
    decreases run
  {
    if run != [] {
      StepRefines(sc, docs, privs, run[0]);
      var shared, own := SharedStep(sc.tenancy.AsRouter(), docs, run[0]), PrivateStep(sc, privs, run[0]);
      RunRefines(sc, shared.0, own.0, run[1..]);
    }
  }

  function Fresh(tenants: set<string>): (privs: Privates)
    ensures privs.Keys == tenants
  {
    map t | t in tenants :: map[]
  }

  /** From an empty index, every run of any separated tenants. */
  lemma IsolationFromEmpty(sc: Scope, tenants: set<string>, run: seq<Ctx>)
    requires sc.Sound() && Separated(sc, tenants)
    requires forall i :: 0 <= i < |run| ==> From(sc, tenants, run[i])
    ensures var shared, own := SharedRun(sc.tenancy.AsRouter(), map[], run), PrivateRun(sc, Fresh(tenants), run);
            Represents(sc, shared.0, own.0) && shared.1 == own.1
  {
    assert Represents(sc, map[], Fresh(tenants));
    RunRefines(sc, map[], Fresh(tenants), run);
  }

  // ----- what separation is worth -----

  lemma {:induction false} OthersUntouched(sc: Scope, privs: Privates, run: seq<Ctx>, t: string)
    requires t in privs
    requires forall i :: 0 <= i < |run| ==> sc.tenancy.ResolvePartition(run[i]) != Ok(t)
    ensures t in PrivateRun(sc, privs, run).0 && PrivateRun(sc, privs, run).0[t] == privs[t]
    decreases run
  {
    if run != [] { OthersUntouched(sc, PrivateStep(sc, privs, run[0]).0, run[1..], t); }
  }

  lemma SeenIsPrivate(sc: Scope, docs: Docs, privs: Privates, ctx: Ctx)
    requires sc.Sound() && Separated(sc, privs.Keys)
    requires Represents(sc, docs, privs) && From(sc, privs.Keys, ctx)
    ensures SharedStep(sc.tenancy.AsRouter(), docs, ctx).1 == PrivateStep(sc, privs, ctx).1
  {
    StepRefines(sc, docs, privs, ctx);
  }

  lemma OwnStoreDecides(sc: Scope, privs: Privates, others: Privates, t: string, ctx: Ctx)
    requires sc.tenancy.ResolvePartition(ctx) == Ok(t) && PrivateOf(privs, t) == PrivateOf(others, t)
    ensures PrivateStep(sc, privs, ctx).1 == PrivateStep(sc, others, ctx).1
  {
  }

  /** Non-interference: whatever the other tenants do in between, a tenant's next request
      shows exactly what it would have shown before. */
  lemma NonInterference(sc: Scope, docs: Docs, privs: Privates, t: string, others: seq<Ctx>, ctx: Ctx)
    requires sc.Sound() && Separated(sc, privs.Keys)
    requires Represents(sc, docs, privs) && t in privs
    requires forall i :: 0 <= i < |others| ==>
               From(sc, privs.Keys, others[i]) && sc.tenancy.ResolvePartition(others[i]) != Ok(t)
    requires From(sc, privs.Keys, ctx) && sc.tenancy.ResolvePartition(ctx) == Ok(t)
    ensures var router := sc.tenancy.AsRouter();
            SharedStep(router, SharedRun(router, docs, others).0, ctx).1 == SharedStep(router, docs, ctx).1
  {
    var own := PrivateRun(sc, privs, others).0;
    RunRefines(sc, docs, privs, others);
    OthersUntouched(sc, privs, others, t);
    SeenIsPrivate(sc, SharedRun(sc.tenancy.AsRouter(), docs, others).0, own, ctx);
    SeenIsPrivate(sc, docs, privs, ctx);
    OwnStoreDecides(sc, own, privs, t, ctx);
  }

  /** An answer about any stamped document, read by any tenant at its own id, is shaped to that
      document: shaping drops the isolation field without looking at whose it is. */
  lemma AnyStampShaped(sc: Scope, t: string, u: string, index: string, y: string, doc: Json)
    requires sc.Sound() && sc.Storable(doc)
    ensures var answer := FetchFields((sc.tenancy.sharedIndex, sc.shape.Physical(u, y)), Some(sc.Stamp(t, doc)));
            && ValidFields(answer)
            && GetShaped(Obj(answer), ViewOf(sc.tenancy.Decide(u, index), index), y)
               == Obj(FetchFields((index, y), Some(doc)))
  {
    var name := (sc.tenancy.sharedIndex, sc.shape.Physical(u, y));
    var answer := FetchFields(name, Some(sc.Stamp(t, doc)));
    var v := ViewOf(sc.tenancy.Decide(u, index), index);
    StampValid(sc, t, doc);
    FetchFieldsValid(name, Some(sc.Stamp(t, doc)));
    var injected := [(sc.tenancy.injectField, Str(t))];
    StripAdded(doc.fields, injected);
    assert v.names == Names(injected);
    assert StripFields(sc.Stamp(t, doc), v.names) == Obj(doc.fields);
    GetInsert(answer, "_index", Str(index), "_source");
    GetInsert(Insert(answer, "_index", Str(index)), "_id", Str(y), "_source");
    FetchFieldsRenamed(name, (index, y), Some(sc.Stamp(t, doc)), Some(doc.fields));
  }

  lemma StrangerSees(sc: Scope, t: string, u: string, get: Ctx, y: string, doc: Json)
    requires sc.Sound() && sc.Storable(doc) && sc.tenancy.ResolvePartition(get) == Ok(u)
    requires get.endpoint == GetById && get.docId == Some(y)
    ensures ShapeReadResponse(sc.tenancy.AsRouter(), get,
              Print(Engine.AnswerJson(Engine.Fetched(sc.KeyOf(u, y), Some(sc.Stamp(t, doc))), PhysicalNaming())))
            == Some(Found(get.logicalIndex, y, Some(doc)))
  {
    var name := (sc.tenancy.sharedIndex, sc.shape.Physical(u, y));
    AnyStampShaped(sc, t, u, get.logicalIndex, y, doc);
    FetchFieldsAre(name, Some(sc.Stamp(t, doc)));
    FetchFieldsAre((get.logicalIndex, y), Some(doc));
    ParsePrint(Obj(FetchFields(name, Some(sc.Stamp(t, doc)))));
  }

  /** What a read shows after a write, on the shared index and on private stores. */
  function SharedRead(sc: Scope, put: Ctx, get: Ctx): Seen {
    var router := sc.tenancy.AsRouter();
    SharedStep(router, SharedStep(router, map[], put).0, get).1
  }

  function OwnRead(sc: Scope, tenants: set<string>, put: Ctx, get: Ctx): Seen {
    PrivateStep(sc, PrivateStep(sc, Fresh(tenants), put).0, get).1
  }

  predicate PutsAs(sc: Scope, t: string, x: string, put: Ctx) {
    && put.endpoint == IngestDoc && sc.tenancy.ResolvePartition(put) == Ok(t)
    && LogicalOp(sc, t, put).Ok? && LogicalOp(sc, t, put).value.key == x
  }

  predicate GetsAs(sc: Scope, u: string, y: string, get: Ctx) {
    && get.endpoint == GetById && get.verb == GET && get.docId == Some(y)
    && sc.tenancy.ResolvePartition(get) == Ok(u)
  }

  /** Separation is needed: when an id of one tenant and an id of another are the same stored
      id, the second tenant reads the first one's document, where its own store has none. */
  lemma SeparationNeeded(sc: Scope, tenants: set<string>, t: string, x: string, u: string, y: string, put: Ctx, get: Ctx)
    requires sc.Sound() && sc.shape.Physical(t, x) != "" && t != u && sc.KeyOf(t, x) == sc.KeyOf(u, y)
    requires t in tenants && u in tenants && PutsAs(sc, t, x, put) && GetsAs(sc, u, y, get)
    ensures var doc := LogicalOp(sc, t, put).value.doc;
            && SharedRead(sc, put, get) == Shown(Found(get.logicalIndex, y, Some(doc)))
            && OwnRead(sc, tenants, put, get) == Shown(Found(get.logicalIndex, y, None))
            && Found(get.logicalIndex, y, Some(doc)) != Found(get.logicalIndex, y, None)
  {
    StoringStorable(sc, put.body);
    FoundDiffers(get.logicalIndex, y, LogicalOp(sc, t, put).value.doc);
    SharedReadShows(sc, t, x, u, y, put, get);
    OwnReadShows(sc, tenants, t, x, u, y, put, get);
  }

  lemma SharedReadShows(sc: Scope, t: string, x: string, u: string, y: string, put: Ctx, get: Ctx)
    requires sc.Sound() && sc.shape.Physical(t, x) != "" && sc.KeyOf(t, x) == sc.KeyOf(u, y)
    requires PutsAs(sc, t, x, put) && GetsAs(sc, u, y, get) && sc.Storable(LogicalOp(sc, t, put).value.doc)
    ensures SharedRead(sc, put, get) == Shown(Found(get.logicalIndex, y, Some(LogicalOp(sc, t, put).value.doc)))
  {
    FirstWrite(sc, t, x, put);
    StrangerReads(sc, t, u, y, get, LogicalOp(sc, t, put).value.doc);
  }

  lemma OwnReadShows(sc: Scope, tenants: set<string>, t: string, x: string, u: string, y: string, put: Ctx, get: Ctx)
    requires t in tenants && u in tenants && t != u && PutsAs(sc, t, x, put) && GetsAs(sc, u, y, get)
    ensures OwnRead(sc, tenants, put, get) == Shown(Found(get.logicalIndex, y, None))
  {
  }

  lemma FirstWrite(sc: Scope, t: string, x: string, put: Ctx)
    requires sc.Sound() && sc.shape.Physical(t, x) != "" && PutsAs(sc, t, x, put)
    ensures SharedStep(sc.tenancy.AsRouter(), map[], put).0
            == map[sc.KeyOf(t, x) := sc.Stamp(t, LogicalOp(sc, t, put).value.doc)]
  {
    ForwardReads(sc, t, put);
  }

  lemma StrangerReads(sc: Scope, t: string, u: string, y: string, get: Ctx, doc: Json)
    requires sc.Sound() && sc.shape.Physical(u, y) != "" && sc.Storable(doc) && GetsAs(sc, u, y, get)
    ensures SharedStep(sc.tenancy.AsRouter(), map[sc.KeyOf(u, y) := sc.Stamp(t, doc)], get).1
            == Shown(Found(get.logicalIndex, y, Some(doc)))
  {
    ForwardReads(sc, u, get);
    ForwardedHead(sc, u, get);
    StrangerSees(sc, t, u, get, y, doc);
  }

  /** A request through one index name is forwarded exactly as through any other. */
  lemma LogicalIndicesAlias(sc: Scope, ctx: Ctx, other: string)
    requires sc.Sound()
    ensures Prepare(sc.tenancy.AsRouter(), ctx.(logicalIndex := other)) == Prepare(sc.tenancy.AsRouter(), ctx)
  {
    var renamed := ctx.(logicalIndex := other);
    assert sc.tenancy.ResolvePartition(renamed) == sc.tenancy.ResolvePartition(ctx);
    if sc.tenancy.ResolvePartition(ctx).Ok? {
      var t := sc.tenancy.ResolvePartition(ctx).value;
      assert sc.tenancy.Decide(t, other) == sc.tenancy.Decide(t, ctx.logicalIndex);
    }
  }

  /** Two runs that differ in the logical indices they name. */
  predicate SameButIndices(a: seq<Ctx>, b: seq<Ctx>) {
    |a| == |b| && forall i :: 0 <= i < |a| ==> b[i] == a[i].(logicalIndex := b[i].logicalIndex)
  }

  lemma StoreAliases(sc: Scope, docs: Docs, ctx: Ctx, other: string)
    requires sc.Sound()
    ensures SharedStep(sc.tenancy.AsRouter(), docs, ctx.(logicalIndex := other)).0
            == SharedStep(sc.tenancy.AsRouter(), docs, ctx).0
  {
    LogicalIndicesAlias(sc, ctx, other);
  }

  /** In shared mode the logical index is not part of a document's address: renaming the indices
      of any run, request by request, leaves the same store. */
  lemma {:induction false} RenamedRunsAlias(sc: Scope, docs: Docs, a: seq<Ctx>, b: seq<Ctx>)
    requires sc.Sound() && SameButIndices(a, b)
    ensures SharedRun(sc.tenancy.AsRouter(), docs, a).0 == SharedRun(sc.tenancy.AsRouter(), docs, b).0
    decreases a
  {
    if a != [] {
      StoreAliases(sc, docs, a[0], b[0].logicalIndex);
      RenamedRunsAlias(sc, SharedStep(sc.tenancy.AsRouter(), docs, a[0]).0, a[1..], b[1..]);
    }
  }

  // ----- the write gate over runs -----

  /** A tenant in cutover is answered 409 on every covered write, and its store is left alone. */
  lemma HeldStep(sc: Scope, privs: Privates, t: string, ctx: Ctx)
    requires t in privs && !sc.tenancy.AdmitWrite(t)
    ensures t in PrivateStep(sc, privs, ctx).0 && PrivateStep(sc, privs, ctx).0[t] == privs[t]
    ensures sc.tenancy.ResolvePartition(ctx) == Ok(t) && ctx.endpoint.IsWrite() ==>
              PrivateStep(sc, privs, ctx) == (privs, Refused(HELD))
  {
    if sc.tenancy.ResolvePartition(ctx) == Ok(t) && LogicalOp(sc, t, ctx).Ok? {
      assert !ctx.endpoint.IsWrite();
      var op := LogicalOp(sc, t, ctx).value;
      assert op.Fetch? || op.FetchMany?;
    }
  }

  lemma {:induction false} HeldRun(sc: Scope, privs: Privates, run: seq<Ctx>, t: string)
    requires t in privs && !sc.tenancy.AdmitWrite(t)
    ensures t in PrivateRun(sc, privs, run).0 && PrivateRun(sc, privs, run).0[t] == privs[t]
    decreases run
  {
    if run != [] {
      HeldStep(sc, privs, t, run[0]);
      HeldRun(sc, PrivateStep(sc, privs, run[0]).0, run[1..], t);
    }
  }

  /** The write gate: over every run of any tenants, the documents of a tenant in cutover stay in
      the shared store as they were, and its reads go on showing them. */
  lemma HeldTenantFrozen(sc: Scope, docs: Docs, privs: Privates, run: seq<Ctx>, t: string, x: string)
    requires sc.Sound() && Separated(sc, privs.Keys)
    requires Represents(sc, docs, privs) && t in privs && sc.tenancy.migration == Some((t, Cutover))
    requires forall i :: 0 <= i < |run| ==> From(sc, privs.Keys, run[i])
    ensures var after := SharedRun(sc.tenancy.AsRouter(), docs, run).0;
            Engine.Lookup(after, sc.KeyOf(t, x)) == Engine.Lookup(docs, sc.KeyOf(t, x))
            == StampOption(sc, t, Engine.Lookup(privs[t], x))
  {
    RunRefines(sc, docs, privs, run);
    HeldRun(sc, privs, run, t);
    KeyPresent(sc, docs, privs, t, x);
    KeyPresent(sc, SharedRun(sc.tenancy.AsRouter(), docs, run).0, PrivateRun(sc, privs, run).0, t, x);
  }

  /** What a get of a document answers. */
  function Found(index: string, id: string, doc: Option<Json>): string {
    Print(Engine.AnswerJson(Engine.Fetched(id, doc), LogicalNaming(index)))
  }

  lemma FoundDiffers(index: string, id: string, doc: Json)
    requires Valid(doc)
    ensures Found(index, id, None) != Found(index, id, Some(doc))
  {
    FetchFieldsAre((index, id), None);
    FetchFieldsAre((index, id), Some(doc));
    FetchFieldsValid((index, id), None);
    FetchFieldsValid((index, id), Some(doc));
    ParsePrint(Obj(FetchFields((index, id), None)));
    ParsePrint(Obj(FetchFields((index, id), Some(doc))));
  }

  /** Reading one's own write at the path's id. A tenant puts a document at a path id it does
      not yet use and reads that id back: it is shown the document exactly when the body's id
      field says the same id, because the id in the path of a write is otherwise ignored. */
  lemma PathIdFoundIff(sc: Scope, docs: Docs, privs: Privates, t: string, put: Ctx, get: Ctx, pathId: string)
    requires sc.Sound() && Separated(sc, privs.Keys)
    requires Represents(sc, docs, privs) && t in privs && pathId !in privs[t]
    requires put.endpoint == IngestDoc && put.docId == Some(pathId) && sc.tenancy.ResolvePartition(put) == Ok(t)
    requires get.endpoint == GetById && get.verb == GET && get.docId == Some(pathId)
    requires sc.tenancy.ResolvePartition(get) == Ok(t) && LogicalOp(sc, t, put).Ok?
    requires Addressed(sc, t, put) && sc.shape.Physical(t, pathId) != ""
    ensures var router, doc := sc.tenancy.AsRouter(), ParseObject(put.body);
            && doc.Ok?
            && (SharedStep(router, SharedStep(router, docs, put).0, get).1
                == Shown(Found(get.logicalIndex, pathId, Some(Obj(doc.value))))
                <==> ScalarField(doc.value, sc.shape.field) == Some(pathId))
  {
    var shared, own := SharedStep(sc.tenancy.AsRouter(), docs, put).0, PrivateStep(sc, privs, put).0;
    StepRefines(sc, docs, privs, put);
    SeenIsPrivate(sc, shared, own, get);
    OwnReadBack(sc, privs, t, put, get, pathId);
  }

  lemma OwnReadBack(sc: Scope, privs: Privates, t: string, put: Ctx, get: Ctx, pathId: string)
    requires t in privs && pathId !in privs[t]
    requires put.endpoint == IngestDoc && sc.tenancy.ResolvePartition(put) == Ok(t) && LogicalOp(sc, t, put).Ok?
    requires get.endpoint == GetById && get.verb == GET && get.docId == Some(pathId)
    requires sc.tenancy.ResolvePartition(get) == Ok(t)
    ensures var doc := ParseObject(put.body);
            && doc.Ok?
            && (PrivateStep(sc, PrivateStep(sc, privs, put).0, get).1
                == Shown(Found(get.logicalIndex, pathId, Some(Obj(doc.value))))
                <==> ScalarField(doc.value, sc.shape.field) == Some(pathId))
  {
    ParseValid(put.body);
    FoundDiffers(get.logicalIndex, pathId, Obj(ParseObject(put.body).value));
  }
}
