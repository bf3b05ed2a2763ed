/** From a client's request to the operation the store performs. `LogicalOp` says what the
    request means on the tenant's own store; `ReadOp` says what the upstream makes of a
    forwarded request. The theorem of this module: reading what was forwarded gives the
    meaning, addressed to the shared index. */
module Wire {
  import opened Common
  import opened Json
  import opened Rewrite
  import opened Ndjson
  import opened Adapter
  import opened Transform
  import opened Route
  import opened Reference
  import opened Engine
  import opened Shared
  import Percent
  import Bulk
  import Demux

  // ----- what the upstream reads -----

  /** One bulk entry, behind a path that names `home`. */
  function StepFor(cluster: string, home: string, e: BulkEntry): Option<Step<Key>> {
    var index, id := Demux.IndexOr(e.meta, home), ScalarField(e.meta, "_id");
    match e.action
    case Delete =>
      if id.None? then Some(KeylessStep)
      else if index.None? then None
      else Some(DropStep(Key(cluster, index.value, id.value)))
    case Update => None
    case _ =>
      if index.None? || id.None? || e.source.None? || Parse(e.source.value).None? then None
      else Some(PutStep(e.action, Key(cluster, index.value, id.value), Parse(e.source.value).value))
  }

  function StepsFor(cluster: string, home: string, es: seq<BulkEntry>): Option<seq<Step<Key>>> {
    if es == [] then Some([]) else
      var head, rest := StepFor(cluster, home, es[0]), StepsFor(cluster, home, es[1..]);
      if head.None? || rest.None? then None else Some([head.value] + rest.value)
  }

  function TargetKeys(cluster: string, targets: seq<Demux.MgetTarget>): (r: seq<Key>)
    ensures |r| == |targets|
    ensures forall i :: 0 <= i < |targets| ==> r[i] == Key(cluster, targets[i].index, targets[i].id)
  {
    if targets == [] then []
    else [Key(cluster, targets[0].index, targets[0].id)] + TargetKeys(cluster, targets[1..])
  }

  /** The operation a forwarded request asks of the store; None for requests outside this
      model (searches, partial updates, documents without an id). */
  function ReadOp(f: Prepared): Option<Op<Key>> {
    var m := ParseMethod(f.verb);
    if m.None? then None else ReadClassified(f, m.value, Classify(m.value, PathOf(f.path)))
  }

  function ReadClassified(f: Prepared, m: Method, c: Classified): Option<Op<Key>> {
    match c.endpoint
    case IngestBulk =>
      var entries := ParseEntries(Lines(f.body));
      if entries.Err? then None else
        var steps := StepsFor(f.cluster, c.index, entries.value);
        if steps.None? then None else Some(Batch(steps.value))
    case MultiGet =>
      var targets := Demux.ReadMget(c.index, f.body);
      if targets.None? then None else Some(FetchMany(TargetKeys(f.cluster, targets.value)))
    case IngestDoc =>
      var key, doc := DocKey(f, c), Parse(f.body);
      if m != PUT || key.None? || doc.None? then None else Some(Write(key.value, doc.value))
    case GetById =>
      var key := DocKey(f, c);
      if key.None? then None else Some(Fetch(key.value))
    case DeleteById =>
      var key := DocKey(f, c);
      if key.None? then None else Some(Erase(key.value))
    case _ => None
  }

  /** The stored document a by-id path names. */
  function DocKey(f: Prepared, c: Classified): Option<Key> {
    if c.docId.None? then None else
      var id := Percent.Decode(c.docId.value);
      if id.None? then None else Some(Key(f.cluster, c.index, id.value))
  }

  // ----- what a request means to its tenant -----

  const REFUSED := ErrorReply(400, "body_rewrite_failed")
  const HELD := ErrorReply(409, "stale_epoch")

  /** The id and document of a body the tenant may store: an object without the isolation
      field that carries the id field. */
  function Storing(sc: Scope, body: string): Option<(string, Json)> {
    match ParseObject(body)
    case Err(_) => None
    case Ok(fs) =>
      var id := ScalarField(fs, sc.shape.field);
      if Has(fs, sc.tenancy.injectField) || id.None? then None else Some((id.value, Obj(fs)))
  }

  function LogicalStep(sc: Scope, item: BulkItem): Option<Step<string>> {
    match item.source
    case Some(source) =>
      var s := Storing(sc, source);
      if s.None? then None
      else Some(PutStep(item.action, if item.id.Some? then item.id.value else s.value.0, s.value.1))
    case None => Some(if item.id.Some? then DropStep(item.id.value) else KeylessStep)
  }

  function LogicalSteps(sc: Scope, items: seq<BulkItem>): Option<seq<Step<string>>> {
    if items == [] then Some([]) else
      var head, rest := LogicalStep(sc, items[0]), LogicalSteps(sc, items[1..]);
      if head.None? || rest.None? then None else Some([head.value] + rest.value)
  }

  /** The operation on the tenant's own store, or the reply that refuses the request. */
  function LogicalOp(sc: Scope, t: string, ctx: Ctx): Result<Op<string>, Reply> {
    if ctx.endpoint.IsWrite() && !sc.tenancy.AdmitWrite(t) then Err(HELD)
    else
      var id := if ctx.docId.Some? then ctx.docId.value else "";
      match ctx.endpoint
      case IngestDoc =>
        var s := Storing(sc, ctx.body);
        if s.None? then Err(REFUSED) else Ok(Write(s.value.0, s.value.1))
      case GetById => Ok(Fetch(id))
      case DeleteById => Ok(Erase(id))
      case MultiGet =>
        (match ParseMget(ctx.body)
         case Err(_) => Err(REFUSED)
         case Ok(ids) => Ok(FetchMany(ids)))
      case IngestBulk =>
        (match ParseBulk(ctx.body)
         case Err(_) => Err(REFUSED)
         case Ok(items) =>
           var steps := LogicalSteps(sc, items);
           if steps.None? then Err(REFUSED) else Ok(Batch(steps.value)))
      case _ => Err(ErrorReply(501, "endpoint_not_supported_yet"))
  }

  predicate NoUpdates(items: seq<BulkItem>) {
    forall i :: 0 <= i < |items| ==> items[i].action != Update
  }

  /** The requests of the store theorem: single writes, gets, deletes, multi-gets, and bulk
      requests without partial updates. */
  predicate Covered(ctx: Ctx) {
    match ctx.endpoint
    case IngestDoc | MultiGet => true
    case GetById => (ctx.verb == GET || ctx.verb == HEAD) && ctx.docId.Some?
    case DeleteById => ctx.verb == DELETE
    case IngestBulk => ParseBulk(ctx.body).Ok? ==> NoUpdates(ParseBulk(ctx.body).value)
    case _ => false
  }

  // ----- the transform of a shared-index decision -----

  lemma StampValid(sc: Scope, t: string, doc: Json)
    requires sc.Storable(doc)
    ensures Valid(sc.Stamp(t, doc))
    ensures AddFields(doc.fields, [(sc.tenancy.injectField, Str(t))]) == Ok(sc.Stamp(t, doc).fields)
  {
    var f := (sc.tenancy.injectField, Str(t));
    InsertValid(doc.fields, f.0, f.1);
    InsertNew(doc.fields, f.0, f.1);
    assert [f][1..] == [];
    assert AddFields(doc.fields + [f], []) == Ok(doc.fields + [f]);
  }

  lemma StoringStorable(sc: Scope, body: string)
    requires Storing(sc, body).Some?
    ensures sc.Storable(Storing(sc, body).value.1)
  {
    ParseValid(body);
  }

  function RoutingIn(sc: Scope, t: string): Option<string> {
    if sc.tenancy.routing then Some(t) else None
  }

  lemma SharedInjects(sc: Scope, t: string)
    ensures ResolveValues([InjectedField(sc.tenancy.injectField, PartitionId)], t)
            == Ok([(sc.tenancy.injectField, Str(t))])
  {
    var fields := [InjectedField(sc.tenancy.injectField, PartitionId)];
    assert fields[1..] == [];
    assert ResolveValues([], t) == Ok([]);
    assert [(fields[0].name, Str(t))] + [] == [(sc.tenancy.injectField, Str(t))];
  }

  /** Applying the decision: a storable body gets the physical id of its own id and the
      stamped document; every other body is refused. */
  lemma SharedApply(sc: Scope, t: string, index: string, body: string)
    requires sc.Sound()
    ensures var p := sc.tenancy.Decide(t, index);
            var s := Storing(sc, body);
            match s
            case None => Apply(body, p.transform, t).Err? && Apply(body, p.transform, t).error.RewriteFailed?
            case Some(st) =>
              Apply(body, p.transform, t) ==
              Ok(Transformed(Some(sc.shape.Physical(t, st.0)), Print(sc.Stamp(t, st.1)), RoutingIn(sc, t)))
  {
    SharedInjects(sc, t);
    var injected := [(sc.tenancy.injectField, Str(t))];
    match ParseObject(body) {
      case Err(_) =>
      case Ok(fs) =>
        ConstructIsMap(sc.tenancy.idTemplate, t, body, sc.shape, fs);
        if Has(fs, sc.tenancy.injectField) {
          assert AddFields(fs, injected).Err?;
        } else {
          ParseValid(body);
          StampValid(sc, t, Obj(fs));
        }
    }
  }

  // ----- reading each kind of forwarded request -----

  lemma ClusterPath(verb: string)
    requires Plain(verb)
    ensures PathOf("/" + verb) == "/" + verb && Segments("/" + verb) == [verb]
  {
    assert Free("/" + verb, '?');
    SplitQuery("/" + verb, "");
    assert "/" + verb + "" == "/" + verb;
    Segments1(verb);
  }

  lemma ReadCluster(f: Prepared)
    requires f.verb == "POST" && (f.path == "/_bulk" || f.path == "/_mget")
    ensures ReadOp(f) ==
            ReadClassified(f, POST, Classified("", if f.path == "/_bulk" then IngestBulk else MultiGet, None))
  {
    var verb := if f.path == "/_bulk" then "_bulk" else "_mget";
    assert f.path == "/" + verb;
    ClusterPath(verb);
    ClassifyCluster(verb);
  }

  lemma ClassifyCluster(verb: string)
    requires verb in {"_bulk", "_mget"}
    ensures ClassifySegments(POST, [verb]) ==
            Classified("", if verb == "_bulk" then IngestBulk else MultiGet, None)
  {
  }

  /** What a by-id request asks for, by method. */
  function DocOp(m: Method, key: Key, body: string): Option<Op<Key>> {
    match m
    case PUT => if Parse(body).Some? then Some(Write(key, Parse(body).value)) else None
    case POST => None
    case DELETE => Some(Erase(key))
    case _ => Some(Fetch(key))
  }

  lemma ReadDocClassified(f: Prepared, m: Method, index: string, id: string)
    ensures ReadClassified(f, m, Classified(index, DocEndpoint(m, "_doc"), Some(Percent.Encode(id))))
            == DocOp(m, Key(f.cluster, index, id), f.body)
  {
    Percent.DecodeEncode(id);
  }

  lemma ReadDoc(f: Prepared, m: Method, index: string, id: string, routing: Option<string>)
    requires PlainIndex(index) && id != "" && f.verb == MethodText(m) && f.path == DocPath(index, id, routing)
    ensures ReadOp(f) == DocOp(m, Key(f.cluster, index, id), f.body)
  {
    DocPathRead(m, index, id, routing);
    ReadAs(f, m, Classified(index, DocEndpoint(m, "_doc"), Some(Percent.Encode(id))));
    ReadDocClassified(f, m, index, id);
  }

  lemma ReadAs(f: Prepared, m: Method, c: Classified)
    requires f.verb == MethodText(m) && Classify(m, PathOf(f.path)) == c
    ensures ReadOp(f) == ReadClassified(f, m, c)
  {
  }

  /** A request for one document by its id names a physical id at all: with an id template
      without fixed text, an empty logical id would leave the path without one. */
  predicate Addressed(sc: Scope, t: string, ctx: Ctx) {
    match LogicalOp(sc, t, ctx)
    case Ok(Write(x, _)) => sc.shape.Physical(t, x) != ""
    case Ok(Erase(x)) => sc.shape.Physical(t, x) != ""
    case Ok(Fetch(x)) => sc.shape.Physical(t, x) != ""
    case _ => true
  }

  /** The template puts some text around this tenant's ids. */
  predicate Named(sc: Scope, t: string) {
    sc.shape.Prefix(t) + sc.shape.Suffix(t) != ""
  }

  /** What `ForwardReads` claims of one request. */
  predicate Reads(sc: Scope, t: string, ctx: Ctx, forward: Forward) {
    match LogicalOp(sc, t, ctx)
    case Err(reply) => forward == Immediate(reply)
    case Ok(op) =>
      StorableOp(sc, op) && forward.Upstream? && ReadOp(forward.f) == Some(PhysicalOp(sc, t, op))
  }

  lemma WriteReads(sc: Scope, t: string, ctx: Ctx)
    requires sc.Sound() && Addressed(sc, t, ctx) && ctx.endpoint == IngestDoc && sc.tenancy.AdmitWrite(t)
    ensures Reads(sc, t, ctx, WriteForward(sc.tenancy.Decide(t, ctx.logicalIndex), ctx))
  {
    SharedApply(sc, t, ctx.logicalIndex, ctx.body);
    var s := Storing(sc, ctx.body);
    if s.Some? {
      StoringStorable(sc, ctx.body);
      StampValid(sc, t, s.value.1);
      ParsePrint(sc.Stamp(t, s.value.1));
      ReadDoc(WriteForward(sc.tenancy.Decide(t, ctx.logicalIndex), ctx).f, PUT,
              sc.tenancy.sharedIndex, sc.shape.Physical(t, s.value.0), RoutingIn(sc, t));
    }
  }

  lemma SharedPhysicalId(sc: Scope, t: string, index: string, x: string)
    requires sc.Sound()
    ensures PhysicalId(sc.tenancy.Decide(t, index).transform, t, x)
            == Ok((sc.shape.Physical(t, x), RoutingIn(sc, t)))
  {
  }

  lemma ByIdReads(sc: Scope, t: string, ctx: Ctx)
    requires sc.Sound() && Addressed(sc, t, ctx) && Covered(ctx)
    requires ctx.endpoint == GetById || (ctx.endpoint == DeleteById && sc.tenancy.AdmitWrite(t))
    ensures Reads(sc, t, ctx, ByIdForward(sc.tenancy.Decide(t, ctx.logicalIndex), ctx))
  {
    var x := if ctx.docId.Some? then ctx.docId.value else "";
    SharedPhysicalId(sc, t, ctx.logicalIndex, x);
    ReadDoc(ByIdForward(sc.tenancy.Decide(t, ctx.logicalIndex), ctx).f, ctx.verb,
            sc.tenancy.sharedIndex, sc.shape.Physical(t, x), RoutingIn(sc, t));
  }

  lemma {:induction false} LocatedKeys(sc: Scope, t: string, index: string, ids: seq<string>)
    requires sc.Sound()
    requires var p := sc.tenancy.Decide(t, index);
             forall i :: 0 <= i < |ids| ==> PhysicalId(p.transform, t, ids[i]).Ok?
    ensures TargetKeys(sc.tenancy.ClusterFor(t), Demux.Located(sc.tenancy.Decide(t, index), ids))
            == KeysOf(sc, t, ids)
  {
    if ids != [] {
      SharedPhysicalId(sc, t, index, ids[0]);
      var p := sc.tenancy.Decide(t, index);
      forall i | 0 <= i < |ids[1..]| ensures PhysicalId(p.transform, t, ids[1..][i]).Ok? {
        SharedPhysicalId(sc, t, index, ids[1..][i]);
      }
      LocatedKeys(sc, t, index, ids[1..]);
      assert Demux.Located(p, ids)[1..] == Demux.Located(p, ids[1..]);
    }
  }

  lemma {:induction false} MgetAlwaysRewrites(sc: Scope, t: string, index: string, ids: seq<string>)
    requires sc.Sound()
    ensures Demux.MgetDocs(sc.tenancy.Decide(t, index), ids).Ok?
  {
    if ids != [] {
      SharedPhysicalId(sc, t, index, ids[0]);
      MgetAlwaysRewrites(sc, t, index, ids[1..]);
    }
  }

  lemma MgetTargets(sc: Scope, t: string, index: string, body: string)
    requires sc.Sound() && ParseMget(body).Ok?
    ensures var p := sc.tenancy.Decide(t, index);
            && Demux.RewriteMget(p, body).Ok?
            && Demux.ReadMget("", Demux.RewriteMget(p, body).value).Some?
            && TargetKeys(sc.tenancy.ClusterFor(t), Demux.ReadMget("", Demux.RewriteMget(p, body).value).value)
               == KeysOf(sc, t, ParseMget(body).value)
  {
    MgetAlwaysRewrites(sc, t, index, ParseMget(body).value);
    Demux.RewrittenMgetRead(sc.tenancy.Decide(t, index), "", body);
    LocatedKeys(sc, t, index, ParseMget(body).value);
  }

  lemma MgetClassified(f: Prepared, targets: seq<Demux.MgetTarget>)
    requires Demux.ReadMget("", f.body) == Some(targets)
    ensures ReadClassified(f, POST, Classified("", MultiGet, None)) == Some(FetchMany(TargetKeys(f.cluster, targets)))
  {
  }

  lemma MgetOp(f: Prepared, targets: seq<Demux.MgetTarget>)
    requires f.verb == MethodText(POST) && f.path == "/" + "_mget" && Demux.ReadMget("", f.body) == Some(targets)
    ensures ReadOp(f) == Some(FetchMany(TargetKeys(f.cluster, targets)))
  {
    ClusterPath("_mget");
    ClassifyCluster("_mget");
    ReadAs(f, POST, Classified("", MultiGet, None));
    MgetClassified(f, targets);
  }

  lemma MgetForward(p: Resolved, ctx: Ctx, targets: seq<Demux.MgetTarget>)
    requires ctx.endpoint == MultiGet && Demux.RewriteMget(p, ctx.body).Ok?
    requires Demux.ReadMget("", Demux.RewriteMget(p, ctx.body).value) == Some(targets)
    ensures var forward := ForwardFor(p, ctx);
            forward.Upstream? && ReadOp(forward.f) == Some(FetchMany(TargetKeys(p.target.cluster, targets)))
  {
    assert "/" + "_mget" == "/_mget";
    MgetOp(ForwardFor(p, ctx).f, targets);
  }

  lemma MgetReads(sc: Scope, t: string, ctx: Ctx)
    requires sc.Sound() && ctx.endpoint == MultiGet
    ensures Reads(sc, t, ctx, ForwardFor(sc.tenancy.Decide(t, ctx.logicalIndex), ctx))
  {
    var p := sc.tenancy.Decide(t, ctx.logicalIndex);
    if ParseMget(ctx.body).Ok? {
      MgetTargets(sc, t, ctx.logicalIndex, ctx.body);
      MgetForward(p, ctx, Demux.ReadMget("", Demux.RewriteMget(p, ctx.body).value).value);
    }
  }

  lemma SharedMap(sc: Scope, t: string, index: string, x: string)
    requires sc.Sound()
    ensures Bulk.BulkId(sc.tenancy.Decide(t, index), x) == Ok(sc.shape.Physical(t, x))
  {
  }

  /** The upstream's reading of one rewritten entry. */
  lemma StepOfEntry(p: Resolved, action: BulkAction, id: string, source: Option<string>)
    requires action != Update && (action.Delete? || (source.Some? && Parse(source.value).Some?))
    ensures var key := Key(p.target.cluster, p.target.index, id);
            StepFor(p.target.cluster, "", BulkEntry(action, Bulk.ActionMeta(p, Some(id)), source)) ==
            Some(if action.Delete? then DropStep(key) else PutStep(action, key, Parse(source.value).value))
  {
    Bulk.ActionMetaValid(p, Some(id));
  }

  lemma StepOfKeyless(p: Resolved)
    ensures StepFor(p.target.cluster, "", BulkEntry(Delete, Bulk.ActionMeta(p, None), None)) == Some(KeylessStep)
  {
    Bulk.ActionMetaValid(p, None);
  }

  /** One item reads back as the tenant's own step, or is refused with it. */
  predicate ItemReads(sc: Scope, t: string, index: string, item: BulkItem) {
    var p := sc.tenancy.Decide(t, index);
    var r := Bulk.RewriteItem(p, item);
    match LogicalStep(sc, item)
    case None => r.Err? && r.error.RewriteFailed?
    case Some(step) =>
      r.Ok? && StorableStep(sc, step)
      && StepFor(sc.tenancy.ClusterFor(t), "", Bulk.EntryFor(p, item)) == Some(PhysicalStep(sc, t, step))
  }

  lemma SharedSourced(sc: Scope, t: string, index: string, item: BulkItem)
    requires sc.Sound() && item.source.Some? && item.action != Update && item.action != Delete
    ensures ItemReads(sc, t, index, item)
  {
    var p := sc.tenancy.Decide(t, index);
    SharedApply(sc, t, index, item.source.value);
    var s := Storing(sc, item.source.value);
    if s.Some? {
      StoringStorable(sc, item.source.value);
      StampValid(sc, t, s.value.1);
      ParsePrint(sc.Stamp(t, s.value.1));
      var x := if item.id.Some? then item.id.value else s.value.0;
      SharedMap(sc, t, index, x);
      StepOfEntry(p, item.action, sc.shape.Physical(t, x), Some(Print(sc.Stamp(t, s.value.1))));
    }
  }

  lemma SharedDelete(sc: Scope, t: string, index: string, item: BulkItem)
    requires sc.Sound() && item.source.None? && item.action == Delete
    ensures ItemReads(sc, t, index, item)
  {
    var p := sc.tenancy.Decide(t, index);
    if item.id.Some? {
      SharedMap(sc, t, index, item.id.value);
      StepOfEntry(p, Delete, sc.shape.Physical(t, item.id.value), None);
    } else {
      StepOfKeyless(p);
    }
  }

  /** The items read back as the tenant's own steps, or are refused with them. */
  predicate ItemsRead(sc: Scope, t: string, index: string, items: seq<BulkItem>) {
    var p := sc.tenancy.Decide(t, index);
    match LogicalSteps(sc, items)
    case None => Bulk.ItemsLines(p, items).Err? && Bulk.ItemsLines(p, items).error.RewriteFailed?
    case Some(steps) =>
      && Bulk.AllRewrite(p, items)
      && StepsFor(sc.tenancy.ClusterFor(t), "", Bulk.EntriesFor(p, items)) == Some(PhysicalSteps(sc, t, steps))
      && forall i :: 0 <= i < |steps| ==> StorableStep(sc, steps[i])
  }

  lemma ItemsReadCons(sc: Scope, t: string, index: string, item: BulkItem, rest: seq<BulkItem>)
    requires ItemReads(sc, t, index, item) && ItemsRead(sc, t, index, rest)
    ensures ItemsRead(sc, t, index, [item] + rest)
  {
    var items := [item] + rest;
    assert items[0] == item && items[1..] == rest;
    if LogicalSteps(sc, items).Some? {
      var p := sc.tenancy.Decide(t, index);
      forall i | 0 <= i < |items| ensures Bulk.RewriteItem(p, items[i]).Ok? {
        if i > 0 { assert items[i] == rest[i - 1]; }
      }
    }
  }

  lemma {:induction false} SharedItems(sc: Scope, t: string, index: string, items: seq<BulkItem>)
    requires sc.Sound() && WellSourced(items) && NoUpdates(items)
    ensures ItemsRead(sc, t, index, items)
  {
    if items != [] {
      if items[0].source.Some? {
        SharedSourced(sc, t, index, items[0]);
      } else {
        SharedDelete(sc, t, index, items[0]);
      }
      SharedItems(sc, t, index, items[1..]);
      ItemsReadCons(sc, t, index, items[0], items[1..]);
      assert [items[0]] + items[1..] == items;
    }
  }

  lemma SharedTransformValid(sc: Scope, t: string, index: string)
    requires sc.Sound()
    ensures ValidTransform(sc.tenancy.Decide(t, index).transform)
  {
  }

  lemma BulkSteps(sc: Scope, t: string, index: string, body: string)
    requires sc.Sound() && ParseBulk(body).Ok? && NoUpdates(ParseBulk(body).value)
    ensures var p := sc.tenancy.Decide(t, index);
            var r := Bulk.RewriteBulk(p, body);
            match LogicalSteps(sc, ParseBulk(body).value)
            case None => r.Err? && r.error.RewriteFailed?
            case Some(steps) =>
              && r.Ok? && ParseEntries(Lines(r.value)).Ok?
              && StepsFor(sc.tenancy.ClusterFor(t), "", ParseEntries(Lines(r.value)).value)
                 == Some(PhysicalSteps(sc, t, steps))
              && StorableOp(sc, Batch(steps))
  {
    var p := sc.tenancy.Decide(t, index);
    var items := ParseBulk(body).value;
    ParseBulkSourced(body);
    SharedItems(sc, t, index, items);
    Bulk.ItemsLinesOk(p, items);
    if LogicalSteps(sc, items).Some? {
      SharedTransformValid(sc, t, index);
      Bulk.RewrittenBulkRead(p, body);
    }
  }

  lemma BulkReads(sc: Scope, t: string, ctx: Ctx)
    requires sc.Sound() && ctx.endpoint == IngestBulk && Covered(ctx) && sc.tenancy.AdmitWrite(t)
    ensures Reads(sc, t, ctx, ForwardFor(sc.tenancy.Decide(t, ctx.logicalIndex), ctx))
  {
    var p := sc.tenancy.Decide(t, ctx.logicalIndex);
    if ParseBulk(ctx.body).Ok? {
      BulkSteps(sc, t, ctx.logicalIndex, ctx.body);
      if Bulk.RewriteBulk(p, ctx.body).Ok? { ReadCluster(ForwardFor(p, ctx).f); }
    }
  }

  /** A bulk item that carries a source is taken exactly when the source is an object that
      leaves the isolation field alone and holds a scalar id field, even when the item's action
      line names the id already: the id is built from the source first, and only then replaced. */
  lemma BulkItemTakenIff(sc: Scope, t: string, index: string, item: BulkItem, source: string)
    requires sc.Sound() && item.source == Some(source) && item.action != Delete && item.action != Update
    ensures Bulk.RewriteItem(sc.tenancy.Decide(t, index), item).Ok? <==>
            ParseObject(source).Ok? && !Has(ParseObject(source).value, sc.tenancy.injectField)
            && ScalarField(ParseObject(source).value, sc.shape.field).Some?
  {
    SharedSourced(sc, t, index, item);
  }

  /** Compiling and reading back: what the upstream reads in a forwarded request is the
      tenant's own operation at the shared index's keys and with stamped documents; what the
      tenant's own store would refuse is answered with the same reply and not forwarded. */
  lemma ForwardReads(sc: Scope, t: string, ctx: Ctx)
    requires sc.Sound() && Addressed(sc, t, ctx) && Covered(ctx)
    requires sc.tenancy.ResolvePartition(ctx) == Ok(t)
    ensures Reads(sc, t, ctx, Prepare(sc.tenancy.AsRouter(), ctx))
  {
    if !(ctx.endpoint.IsWrite() && !sc.tenancy.AdmitWrite(t)) {
      match ctx.endpoint
      case IngestDoc => WriteReads(sc, t, ctx);
      case GetById | DeleteById => ByIdReads(sc, t, ctx);
      case MultiGet => MgetReads(sc, t, ctx);
      case IngestBulk => BulkReads(sc, t, ctx);
      case _ =>
    }
  }

  /** A path with an empty id names no document. */
  lemma EmptyIdUnread(f: Prepared, m: Method, index: string, routing: Option<string>)
    requires PlainIndex(index) && f.verb == MethodText(m) && f.path == DocPath(index, "", routing)
    ensures ReadOp(f) == None
  {
    DocPathRead(m, index, "", routing);
    ReadAs(f, m, Classified(index, DocEndpoint(m, "_doc"), None));
    NamelessUnread(f, m, index);
  }

  lemma NamelessUnread(f: Prepared, m: Method, index: string)
    ensures ReadClassified(f, m, Classified(index, DocEndpoint(m, "_doc"), None)) == None
  {
  }

  lemma UnaddressedWrite(sc: Scope, t: string, ctx: Ctx)
    requires sc.Sound() && ctx.endpoint == IngestDoc
    requires sc.tenancy.ResolvePartition(ctx) == Ok(t) && !Addressed(sc, t, ctx)
    ensures !Reads(sc, t, ctx, Prepare(sc.tenancy.AsRouter(), ctx))
  {
    SharedApply(sc, t, ctx.logicalIndex, ctx.body);
    EmptyIdUnread(WriteForward(sc.tenancy.Decide(t, ctx.logicalIndex), ctx).f, PUT,
                  sc.tenancy.sharedIndex, RoutingIn(sc, t));
  }

  lemma UnaddressedById(sc: Scope, t: string, ctx: Ctx)
    requires sc.Sound() && Covered(ctx) && ctx.endpoint in {GetById, DeleteById}
    requires sc.tenancy.ResolvePartition(ctx) == Ok(t) && !Addressed(sc, t, ctx)
    ensures !Reads(sc, t, ctx, Prepare(sc.tenancy.AsRouter(), ctx))
  {
    var x := if ctx.docId.Some? then ctx.docId.value else "";
    SharedPhysicalId(sc, t, ctx.logicalIndex, x);
    EmptyIdUnread(ByIdForward(sc.tenancy.Decide(t, ctx.logicalIndex), ctx).f, ctx.verb,
                  sc.tenancy.sharedIndex, RoutingIn(sc, t));
  }

  /** And exactly then: a request for one document whose physical id would be empty is forwarded
      to a path that names none. */
  lemma ForwardReadsIff(sc: Scope, t: string, ctx: Ctx)
    requires sc.Sound() && Covered(ctx) && sc.tenancy.ResolvePartition(ctx) == Ok(t)
    ensures Reads(sc, t, ctx, Prepare(sc.tenancy.AsRouter(), ctx)) <==> Addressed(sc, t, ctx)
  {
    if Addressed(sc, t, ctx) {
      ForwardReads(sc, t, ctx);
    } else if ctx.endpoint.IngestDoc? {
      UnaddressedWrite(sc, t, ctx);
    } else {
      UnaddressedById(sc, t, ctx);
    }
  }
}
