/** Transform-then-forward dispatch (crates/evoxy-route/src/lib.rs): a request becomes the
    physical request the proxy forwards, or an immediate reply. Nothing here dispatches. */
module Route {
  import opened Common
  import opened Json
  import opened Rewrite
  import opened Ndjson
  import opened Adapter
  import opened Transform
  import Percent
  import Bulk
  import Demux
  import Response

  datatype SpiError =
    | PartitionUnresolved
    | PrincipalAttrMissing
    | HeaderMissing
    | UnsupportedEndpoint
    | PlacementMissing
    | PlacementBackend
    | IdRuleMissingPartition
    | OtherRoutingError

  /** The routing SPI: a decision for a context, and the migration write gate. */
  datatype Router = Router(
    resolve: Ctx -> Result<Resolved, SpiError>,
    admitWrite: (string, nat) -> bool)

  datatype Reply = Reply(status: nat, body: string)

  datatype Prepared = Prepared(
    cluster: string,
    verb: string,
    path: string,
    body: string,
    headerOps: seq<HeaderOp>,
    upstreamHost: Option<string>)

  datatype Forward = Upstream(f: Prepared) | Immediate(reply: Reply)

  // ----- status mapping -----

  function ErrorReply(status: nat, code: string): Reply {
    Reply(status, "{\"error\":\"" + code + "\"}")
  }

  function SpiStatus(e: SpiError): nat {
    match e
    case UnsupportedEndpoint => 501
    case PlacementMissing | PlacementBackend => 503
    case IdRuleMissingPartition => 500
    case _ => 400
  }

  function SpiCode(e: SpiError): string {
    match e
    case PartitionUnresolved => "partition_unresolved"
    case PrincipalAttrMissing => "principal_attr_missing"
    case HeaderMissing => "header_missing"
    case UnsupportedEndpoint => "unsupported_endpoint"
    case PlacementMissing => "placement_missing"
    case PlacementBackend => "placement_backend"
    case IdRuleMissingPartition => "id_rule_missing_partition"
    case OtherRoutingError => "routing_error"
  }

  function SpiReply(e: SpiError): Reply {
    ErrorReply(SpiStatus(e), SpiCode(e))
  }

  function PrepareReply(e: PrepareError): Reply {
    match e
    case RewriteFailed(_) => ErrorReply(400, "body_rewrite_failed")
    case UnresolvedInjectedValue => ErrorReply(500, "unresolved_injected_value")
  }

  // ----- the upstream authority -----

  /** The text before and after the first `://`. */
  function SplitScheme(s: string): Option<(string, string)> {
    if |s| < 3 then None
    else if s[..3] == "://" then Some(("", s[3..]))
    else
      var r := SplitScheme(s[1..]);
      if r.None? then None else Some(([s[0]] + r.value.0, r.value.1))
  }

  function UntilPath(s: string): string {
    if s == "" || s[0] == '/' || s[0] == '?' || s[0] == '#' then "" else [s[0]] + UntilPath(s[1..])
  }

  predicate HasPort(authority: string) {
    if authority != "" && authority[0] == '[' then
      var r := SplitOnce(authority[1..], ']');
      r.Some? && r.value.1 != "" && r.value.1[0] == ':'
    else !Free(authority, ':')
  }

  /** `host:port` of an endpoint URL, with the scheme's default port. */
  function AuthorityOf(endpoint: string): Option<string> {
    var s := SplitScheme(endpoint);
    var authority := UntilPath(if s.Some? then s.value.1 else endpoint);
    if authority == "" then None
    else if HasPort(authority) then Some(authority)
    else if s.Some? && s.value.0 == "https" then Some(authority + ":443")
    else if s.Some? && s.value.0 == "http" then Some(authority + ":80")
    else Some(authority)
  }

  function HostOf(p: Resolved): Option<string> {
    if p.target.endpoint.None? then None else AuthorityOf(p.target.endpoint.value)
  }

  // ----- the physical request -----

  function Supported(e: Endpoint): bool {
    e in {IngestDoc, IngestBulk, GetById, DeleteById, Search, Count, MultiGet, MultiSearch}
  }

  function RoutingQuery(routing: Option<string>): string {
    if routing.Some? then ['?'] + ("routing=" + Percent.Encode(routing.value)) else ""
  }

  /** `/{index}/_doc/{segment}`. */
  function SegmentPath(index: string, segment: string): string {
    "/" + index + "/" + "_doc" + "/" + segment
  }

  function DocPath(index: string, id: string, routing: Option<string>): string {
    SegmentPath(index, Percent.Encode(id)) + RoutingQuery(routing)
  }

  function WritePath(index: string, id: Option<string>, routing: Option<string>): (string, string) {
    match id
    case Some(id) => ("PUT", DocPath(index, id, routing))
    case None => ("POST", "/" + index + "/" + "_doc" + RoutingQuery(routing))
  }

  function MethodText(m: Method): string {
    match m
    case PUT => "PUT"
    case POST => "POST"
    case DELETE => "DELETE"
    case HEAD => "HEAD"
    case GET => "GET"
  }

  function Toward(p: Resolved, verb: string, path: string, body: string): Forward {
    Upstream(Prepared(p.target.cluster, verb, path, body, p.headerOps, HostOf(p)))
  }

  function OrReply(body: Result<string, PrepareError>, p: Resolved, verb: string, path: string): Forward {
    match body
    case Ok(text) => Toward(p, verb, path, text)
    case Err(e) => Immediate(PrepareReply(e))
  }

  function WriteForward(p: Resolved, ctx: Ctx): Forward {
    match Apply(ctx.body, p.transform, p.partition)
    case Err(e) => Immediate(PrepareReply(e))
    case Ok(t) =>
      // A constructed id wins over the id in the client's path.
      var id := if t.id.Some? then t.id else ctx.docId;
      var line := WritePath(p.target.index, id, t.routing);
      Toward(p, line.0, line.1, t.body)
  }

  function ByIdForward(p: Resolved, ctx: Ctx): Forward {
    var logical := if ctx.docId.Some? then ctx.docId.value else "";
    match PhysicalId(p.transform, p.partition, logical)
    case Err(e) => Immediate(PrepareReply(e))
    case Ok(mapped) => Toward(p, MethodText(ctx.verb), DocPath(p.target.index, mapped.0, mapped.1), "")
  }

  function QueryForward(p: Resolved, ctx: Ctx, verb: string): Forward {
    OrReply(FilteredQuery(ctx.body, FilterTerms(p.transform, p.partition)), p,
            "POST", "/" + p.target.index + "/" + verb)
  }

  function ForwardFor(p: Resolved, ctx: Ctx): Forward {
    match ctx.endpoint
    case IngestDoc => WriteForward(p, ctx)
    case IngestBulk => OrReply(Bulk.RewriteBulk(p, ctx.body), p, "POST", "/_bulk")
    case GetById | DeleteById => ByIdForward(p, ctx)
    case Search => QueryForward(p, ctx, "_search")
    case Count => QueryForward(p, ctx, "_count")
    case MultiGet => OrReply(Demux.RewriteMget(p, ctx.body), p, "POST", "/_mget")
    case MultiSearch => OrReply(Demux.RewriteMsearch(p, ctx.body), p, "POST", "/_msearch")
    case _ => Immediate(ErrorReply(501, "endpoint_not_supported_yet"))
  }

  function Prepare(router: Router, ctx: Ctx): Forward {
    if !Supported(ctx.endpoint) then Immediate(ErrorReply(501, "endpoint_not_supported_yet"))
    else
      match router.resolve(ctx)
      case Err(e) => Immediate(SpiReply(e))
      case Ok(p) =>
        if ctx.endpoint.IsWrite() && !router.admitWrite(p.partition, p.epoch)
        then Immediate(ErrorReply(409, "stale_epoch"))
        else ForwardFor(p, ctx)
  }

  /** The header-phase facets: cluster and host. */
  function ResolveTarget(router: Router, ctx: Ctx): Result<(string, Option<string>), Reply> {
    if !Supported(ctx.endpoint) then Err(ErrorReply(501, "endpoint_not_supported_yet"))
    else
      match router.resolve(ctx)
      case Err(e) => Err(SpiReply(e))
      case Ok(p) => Ok((p.target.cluster, HostOf(p)))
  }

  /** What an explain line reports. */
  datatype Explained = Routes(p: Resolved) | Rejects(status: nat, code: string)

  function Explain(router: Router, ctx: Ctx): Explained {
    if !Supported(ctx.endpoint) then Rejects(501, "endpoint_not_supported_yet")
    else
      match router.resolve(ctx)
      case Err(e) => Rejects(SpiStatus(e), SpiCode(e))
      case Ok(p) =>
        if ctx.endpoint.IsWrite() && !router.admitWrite(p.partition, p.epoch)
        then Rejects(409, "stale_epoch") else Routes(p)
  }

  /** The shaped body of a read; None leaves the upstream's body as it is. */
  function ShapeReadResponse(router: Router, ctx: Ctx, body: string): Option<string> {
    match router.resolve(ctx)
    case Err(_) => None
    case Ok(p) =>
      var v := Response.ViewOf(p, ctx.logicalIndex);
      match ctx.endpoint
      case GetById =>
        if ctx.docId.None? then None else OkText(Response.ShapeGet(v, ctx.docId.value, body))
      case Search => OkText(Response.ShapeSearch(v, body))
      case IngestBulk => OkText(Response.ShapeBulk(v, body))
      case MultiGet => OkText(Response.ShapeMget(v, body))
      case MultiSearch => OkText(Response.ShapeMsearch(v, body))
      case _ => None
  }

  function OkText(r: Result<string, PrepareError>): Option<string> {
    match r
    case Ok(text) => Some(text)
    case Err(_) => None
  }

  // ----- the phases agree -----

  /** The decision does not depend on the request body. */
  ghost predicate BodyIndependent(router: Router) {
    forall ctx: Ctx, body: string :: router.resolve(ctx.(body := body)) == router.resolve(ctx)
  }

  /** The header phase and the explain surface see the request without its body. They never
      contradict the body phase: what it forwards they route, to the same cluster and host;
      what either rejects it rejects, with the same status and code; and when both route,
      only the body itself can still be refused. */
  lemma PhasesAgree(router: Router, ctx: Ctx, seen: string)
    requires BodyIndependent(router)
    ensures var early := ctx.(body := seen);
            var late := Prepare(router, ctx);
            && (late.Upstream? ==>
                  ResolveTarget(router, early) == Ok((late.f.cluster, late.f.upstreamHost))
                  && Explain(router, early).Routes?)
            && (ResolveTarget(router, early).Err? ==>
                  late == Immediate(ResolveTarget(router, early).error)
                  && Explain(router, early).Rejects?)
            && (Explain(router, early).Rejects? ==>
                  late == Immediate(ErrorReply(Explain(router, early).status, Explain(router, early).code)))
            && (Explain(router, early).Routes? && late.Immediate? ==>
                  late.reply in {ErrorReply(400, "body_rewrite_failed"), ErrorReply(500, "unresolved_injected_value")})
  {
    assert router.resolve(ctx.(body := seen)) == router.resolve(ctx);
  }

  // ----- the forwarded path on the other side -----

  /** A physical index name: one path segment that is not an administrative root. */
  predicate PlainIndex(index: string) {
    Plain(index) && !IsAdminRoot(index)
  }

  function QueryOf(pathAndQuery: string): Option<string> {
    var r := SplitOnce(pathAndQuery, '?');
    if r.Some? then Some(r.value.1) else None
  }

  lemma EncodedFree(s: string)
    ensures Free(Percent.Encode(s), '/') && Free(Percent.Encode(s), '?')
    ensures s != "" ==> Percent.Encode(s) != ""
  {
    Percent.EncodeShape(s);
  }

  lemma SegmentPathFree(index: string, segment: string)
    requires Plain(index) && Free(segment, '?')
    ensures Free(SegmentPath(index, segment), '?')
  {
  }

  lemma SplitQuery(path: string, query: string)
    requires Free(path, '?')
    ensures PathOf(path + (['?'] + query)) == path && QueryOf(path + (['?'] + query)) == Some(query)
    ensures PathOf(path + "") == path && QueryOf(path + "") == None
  {
    SplitOnceAt(path, '?', query);
    assert path + (['?'] + query) == path + ['?'] + query;
    assert path + "" == path;
  }

  lemma SplitDocPath(index: string, id: string, routing: Option<string>)
    requires PlainIndex(index)
    ensures PathOf(DocPath(index, id, routing)) == SegmentPath(index, Percent.Encode(id))
    ensures QueryOf(DocPath(index, id, routing)) ==
            if routing.Some? then Some("routing=" + Percent.Encode(routing.value)) else None
  {
    EncodedFree(id);
    SegmentPathFree(index, Percent.Encode(id));
    var query := if routing.Some? then "routing=" + Percent.Encode(routing.value) else "";
    SplitQuery(SegmentPath(index, Percent.Encode(id)), query);
  }

  lemma ClassifySegmentPath(m: Method, index: string, segment: string)
    requires PlainIndex(index) && Free(segment, '/')
    ensures Classify(m, SegmentPath(index, segment)) ==
            Classified(index, DocEndpoint(m, "_doc"), if segment == "" then None else Some(segment))
  {
    if segment == "" {
      SegmentsTrailing(index, "_doc");
      assert SegmentPath(index, segment) == "/" + index + "/" + "_doc" + "/";
      ClassifyDoc(m, index, [index, "_doc"]);
    } else {
      Segments3(index, "_doc", segment);
      ClassifyDoc(m, index, [index, "_doc", segment]);
    }
  }

  /** The server classifies the path of a by-id request to the physical index and one id
      segment, and decoding that segment and the routing value gives back the exact id and
      routing, whatever characters they hold. Only an empty id leaves no segment. */
  lemma DocPathRead(m: Method, index: string, id: string, routing: Option<string>)
    requires PlainIndex(index)
    ensures Classify(m, PathOf(DocPath(index, id, routing))) ==
            Classified(index, DocEndpoint(m, "_doc"), if id == "" then None else Some(Percent.Encode(id)))
    ensures Percent.Decode(Percent.Encode(id)) == Some(id)
    ensures QueryOf(DocPath(index, id, routing)) ==
            if routing.Some? then Some("routing=" + Percent.Encode(routing.value)) else None
    ensures routing.Some? ==> Percent.Decode(Percent.Encode(routing.value)) == routing
  {
    SplitDocPath(index, id, routing);
    EncodedFree(id);
    Percent.DecodeEncode(id);
    if routing.Some? { Percent.DecodeEncode(routing.value); }
    ClassifySegmentPath(m, index, Percent.Encode(id));
  }

  /** What the server makes of a by-id path: the physical index, one segment that decodes to the
      id, and a query that decodes to the routing value. */
  predicate NamesDocument(path: string, m: Method, index: string, id: string, routing: Option<string>) {
    var c := Classify(m, PathOf(path));
    && c.index == index && c.endpoint == DocEndpoint(m, "_doc")
    && (if id == "" then c.docId == None else c.docId.Some? && Percent.Decode(c.docId.value) == Some(id))
    && (match routing
        case None => QueryOf(path) == None
        case Some(value) =>
          QueryOf(path).Some? && "routing=" <= QueryOf(path).value
          && Percent.Decode(QueryOf(path).value[|"routing="|..]) == Some(value))
  }

  lemma DocPathNames(m: Method, index: string, id: string, routing: Option<string>)
    requires PlainIndex(index)
    ensures NamesDocument(DocPath(index, id, routing), m, index, id, routing)
  {
    DocPathRead(m, index, id, routing);
    if routing.Some? {
      assert ("routing=" + Percent.Encode(routing.value))[|"routing="|..] == Percent.Encode(routing.value);
    }
  }

  /** The by-id path grown piece by piece, as the router grows it. In a plain index it names the
      document to the server, whatever characters its id and routing hold. */
  method BuildDocPath(m: Method, index: string, id: string, routing: Option<string>) returns (path: string)
    ensures path == DocPath(index, id, routing)
    ensures PlainIndex(index) ==> NamesDocument(path, m, index, id, routing)
  {
    var segment := Percent.EncodeText(id);
    path := "/" + index + "/" + "_doc" + "/" + segment;
    if routing.Some? {
      var value := Percent.EncodeText(routing.value);
      path := path + (['?'] + ("routing=" + value));
    } else {
      assert path + "" == path;
    }
    assert path == DocPath(index, id, routing);
    if PlainIndex(index) { DocPathNames(m, index, id, routing); }
  }

  lemma ClassifyDoc(m: Method, index: string, segs: seq<string>)
    requires !IsAdminRoot(index) && |segs| >= 2 && segs[0] == index && segs[1] == "_doc"
    ensures ClassifySegments(m, segs) ==
            Classified(index, DocEndpoint(m, "_doc"), if |segs| == 2 then None else Some(segs[2]))
  {
  }

  lemma ClassifiedIndex(m: Method, segs: seq<string>)
    ensures ClassifySegments(m, segs).index == "" || (segs != [] && ClassifySegments(m, segs).index == segs[0])
    ensures segs != [] && IsAdminRoot(segs[0]) ==> ClassifySegments(m, segs).index == ""
  {
  }

  /** A physical index name is written into the path without encoding. The server reads that
      name back exactly when it is a plain, non-administrative path segment. */
  lemma IndexReadIff(m: Method, index: string, segment: string)
    requires Plain(segment)
    ensures Classify(m, PathOf(SegmentPath(index, segment))).index == index <==> PlainIndex(index)
  {
    var whole := SegmentPath(index, segment);
    var path := PathOf(whole);
    if Plain(index) {
      SegmentPathFree(index, segment);
      SplitQuery(whole, "");
      assert whole + "" == whole;
      Segments3(index, "_doc", segment);
      if !IsAdminRoot(index) { ClassifyDoc(m, index, [index, "_doc", segment]); }
      ClassifiedIndex(m, [index, "_doc", segment]);
    } else if index == "" {
      EmptyIndex(segment);
      ClassifiedIndex(m, ["_doc", segment]);
      ClassifySlashes(m, segment);
    } else {
      SegmentsClean(path, '?');
      ClassifiedIndex(m, Segments(path));
    }
  }

  lemma EmptyIndex(segment: string)
    requires Plain(segment)
    ensures PathOf(SegmentPath("", segment)) == SegmentPath("", segment)
    ensures Segments(SegmentPath("", segment)) == ["_doc", segment]
  {
    var whole := SegmentPath("", segment);
    var inner := "/" + "_doc" + "/" + segment;
    assert Free(whole, '?');
    SplitQuery(whole, "");
    assert whole + "" == whole;
    assert whole[1..] == inner;
    Segments2("_doc", segment);
    assert TrimLeft(whole, '/') == TrimLeft(inner, '/');
  }

  lemma ClassifySlashes(m: Method, segment: string)
    ensures ClassifySegments(m, ["_doc", segment]).index == "_doc"
  {
  }

  // ----- one address for one document -----

  /** The addresses of the five ways to reach one document. With an id rule whose template
      reads one body field, a body whose field holds `logical` is written to the physical id,
      index and routing at which a get, a delete, an mget entry and a bulk item with that
      explicit id look; and the single write uses the very path of the by-id request. */
  lemma OneAddress(p: Resolved, rule: DocIdRule, shape: IdShape, logical: string, body: string)
    requires p.transform.Rule() == Some(rule) && TemplateShape(rule.template) == Ok(shape)
    requires ParseObject(body).Ok? && ScalarField(ParseObject(body).value, shape.field) == Some(logical)
    requires Apply(body, p.transform, p.partition).Ok?
    ensures var id := shape.Physical(p.partition, logical);
            var routing := if rule.setRouting then Some(p.partition) else None;
            var t := Apply(body, p.transform, p.partition).value;
            && t.id == Some(id) && t.routing == routing
            && PhysicalId(p.transform, p.partition, logical) == Ok((id, routing))
            && Bulk.BulkId(p, logical) == Ok(id) && Bulk.RoutingOf(p) == routing
            && WritePath(p.target.index, t.id, t.routing) == ("PUT", DocPath(p.target.index, id, routing))
  {
    ConstructIsMap(rule.template, p.partition, body, shape, ParseObject(body).value);
  }

  /** Without an id rule, in the dedicated modes, the client's own id is the address: write, get
      and delete use one path without routing, and mget and bulk name the same id. */
  lemma OneAddressWithoutRule(p: Resolved, write: Ctx, read: Ctx, x: string)
    requires p.transform.Rule() == None && write.docId == Some(x) && read.docId == Some(x)
    requires WriteForward(p, write).Upstream?
    ensures var path := DocPath(p.target.index, x, None);
            && WriteForward(p, write).f.verb == "PUT" && WriteForward(p, write).f.path == path
            && ByIdForward(p, read).Upstream? && ByIdForward(p, read).f.path == path
            && PhysicalId(p.transform, p.partition, x) == Ok((x, None))
            && Bulk.BulkId(p, x) == Ok(x) && Bulk.RoutingOf(p) == None
  {
  }

  /** A bulk `index` item without an explicit id is the single POST of its source: same
      physical id, same forwarded document, same refusal. */
  lemma BulkItemIsSinglePost(p: Resolved, ctx: Ctx)
    requires ctx.docId.None?
    ensures var item := Bulk.RewriteItem(p, BulkItem(Index, None, Some(ctx.body)));
            var single := WriteForward(p, ctx);
            match item
            case Err(e) => single == Immediate(PrepareReply(e))
            case Ok(r) =>
              && r.1.Some?
              && single.Upstream? && single.f.body == r.1.value
              && (single.f.verb, single.f.path) == WritePath(p.target.index, r.0, Bulk.RoutingOf(p))
  {
  }

  /** The client's path id is mapped as it stands on the wire, without percent-decoding. So a
      by-id request that escapes an id addresses the document written under that id exactly
      when the id needs no escaping. */
  lemma EscapedPathIdIff(p: Resolved, rule: DocIdRule, shape: IdShape, logical: string)
    requires p.transform.Rule() == Some(rule) && TemplateShape(rule.template) == Ok(shape)
    ensures PhysicalId(p.transform, p.partition, Percent.Encode(logical))
            == PhysicalId(p.transform, p.partition, logical)
            <==> forall c :: c in logical ==> Percent.Unreserved(c)
  {
    var wire := Percent.Encode(logical);
    Percent.EncodeIdentityIff(logical);
    if shape.Physical(p.partition, wire) == shape.Physical(p.partition, logical) {
      StripPhysical(shape, p.partition, wire);
      StripPhysical(shape, p.partition, logical);
    }
  }

  /** `_create` and `_update` on one document are forwarded as the full replacement a `_doc`
      write is. */
  lemma CreateAndUpdateReplace(req: Request, index: string, verb: string, id: string)
    requires PlainIndex(index) && Plain(id) && verb in {"_create", "_update"}
    requires req.verb == "PUT" || req.verb == "POST"
    requires req.pathAndQuery == "/" + index + "/" + verb + "/" + id
    ensures FromFilter(req) == FromFilter(req.(pathAndQuery := SegmentPath(index, id)))
  {
    PathWithoutQuery(index, verb, id);
    PathWithoutQuery(index, "_doc", id);
    var m := if req.verb == "PUT" then PUT else POST;
    ClassifyVerb(m, index, verb, id);
    ClassifyVerb(m, index, "_doc", id);
  }

  lemma ClassifyVerb(m: Method, index: string, verb: string, id: string)
    requires PlainIndex(index) && Plain(id) && verb in {"_doc", "_create", "_update"}
    ensures Classify(m, "/" + index + "/" + verb + "/" + id) ==
            Classified(index, DocEndpoint(m, verb), Some(id))
  {
    assert Free(verb, '/') && verb != "" && verb != "scroll";
    Segments3(index, verb, id);
    var segs := [index, verb, id];
    assert segs[2..] == [id];
  }

  lemma PathWithoutQuery(index: string, verb: string, id: string)
    requires Plain(index) && Free(verb, '?') && Plain(id)
    ensures var path := "/" + index + "/" + verb + "/" + id; PathOf(path) == path
  {
    var path := "/" + index + "/" + verb + "/" + id;
    assert Free(path, '?');
    SplitQuery(path, "");
    assert path + "" == path;
  }
}
