/** Which requests are refused before they reach an upstream, with which reply, for every router;
    and what every other one takes from the decision. */
module Refusals {
  import opened Common
  import opened Json
  import opened Adapter
  import opened Transform
  import opened Route
  import opened Filter

  /** The text of a refusal is an object that names its code and nothing else. */
  lemma RefusalText(status: nat, code: string)
    requires forall i :: 0 <= i < |code| ==> 'a' <= code[i] <= 'z' || code[i] == '_'
    ensures ErrorReply(status, code).status == status
    ensures Parse(ErrorReply(status, code).body) == Some(Obj([("error", Str(code))]))
  {
    OneField(("error", Str(code)));
    ParsePrint(Obj([("error", Str(code))]));
    PlainEscaped(code);
    PlainEscaped("error");
    ErrorPrinted(code);
  }

  lemma {:induction false} PlainEscaped(s: string)
    requires forall i :: 0 <= i < |s| ==> 'a' <= s[i] <= 'z' || s[i] == '_'
    ensures Escape(s) == s
  {
    if s != "" { PlainEscaped(s[1..]); }
  }

  lemma ErrorPrinted(code: string)
    requires Escape(code) == code && Escape("error") == "error"
    ensures ErrorReply(400, code).body == Print(Obj([("error", Str(code))]))
  {
    FieldPrinted("error", code);
    ErrorGlued(code);
  }

  lemma FieldPrinted(name: string, text: string)
    requires Escape(name) == name && Escape(text) == text
    ensures Print(Obj([(name, Str(text))])) ==
            ['{', '"'] + name + ['"', ':', '"'] + text + ['"', '}']
  {
    var key, value := ['"'] + (name + ['"']), ['"'] + (text + ['"']);
    assert Quote(name) == key && Quote(text) == value;
    var f := (name, Str(text));
    assert Print(Str(text)) == value;
    assert PrintField(f) == key + ([':'] + value);
    assert PrintFields([f]) == key + ([':'] + value) + ['}'];
    FieldGlued(name, text);
  }

  lemma FieldGlued(name: string, text: string)
    ensures ['{'] + (['"'] + (name + ['"']) + ([':'] + (['"'] + (text + ['"']))) + ['}'])
            == ['{', '"'] + name + ['"', ':', '"'] + text + ['"', '}']
  {
  }

  lemma ErrorGlued(code: string)
    ensures ErrorReply(400, code).body == ['{', '"'] + "error" + ['"', ':', '"'] + code + ['"', '}']
  {
    assert "{\"error\":\"" == ['{', '"'] + "error" + ['"', ':', '"'];
    assert "\"}" == ['"', '}'];
  }

  /** What a routing error is answered. */
  predicate RoutingRefusal(e: SpiError, reply: Reply) {
    match e
    case PartitionUnresolved => reply == ErrorReply(400, "partition_unresolved")
    case PrincipalAttrMissing => reply == ErrorReply(400, "principal_attr_missing")
    case HeaderMissing => reply == ErrorReply(400, "header_missing")
    case UnsupportedEndpoint => reply == ErrorReply(501, "unsupported_endpoint")
    case PlacementMissing => reply == ErrorReply(503, "placement_missing")
    case PlacementBackend => reply == ErrorReply(503, "placement_backend")
    case IdRuleMissingPartition => reply == ErrorReply(500, "id_rule_missing_partition")
    case OtherRoutingError => reply == ErrorReply(400, "routing_error")
  }

  /** The request goes where the decision says, with its header operations. */
  predicate FollowsDecision(f: Prepared, p: Resolved) {
    && f.cluster == p.target.cluster && f.headerOps == p.headerOps
    && f.upstreamHost == if p.target.endpoint.Some? then AuthorityOf(p.target.endpoint.value) else None
  }

  lemma Forwarded(p: Resolved, ctx: Ctx)
    requires Served(ctx.endpoint)
    ensures match ForwardFor(p, ctx)
            case Upstream(f) => FollowsDecision(f, p)
            case Immediate(reply) =>
              reply == ErrorReply(400, "body_rewrite_failed") || reply == ErrorReply(500, "unresolved_injected_value")
  {
  }

  predicate Served(e: Endpoint) {
    e in {IngestDoc, IngestBulk, GetById, DeleteById, Search, Count, MultiGet, MultiSearch}
  }

  /** For every router, in this order: an endpoint that is not served, a routing error and a held
      write are refused, each with its own reply; what is left is refused only for its body, and
      otherwise follows the decision. */
  lemma PreparedInOrder(router: Router, ctx: Ctx)
    ensures var forward := Prepare(router, ctx);
            if !Served(ctx.endpoint) then forward == Immediate(ErrorReply(501, "endpoint_not_supported_yet"))
            else
              match router.resolve(ctx)
              case Err(e) => forward.Immediate? && RoutingRefusal(e, forward.reply)
              case Ok(p) =>
                if ctx.endpoint in {IngestDoc, IngestBulk, DeleteById} && !router.admitWrite(p.partition, p.epoch)
                then forward == Immediate(ErrorReply(409, "stale_epoch"))
                else
                  match forward
                  case Upstream(f) => FollowsDecision(f, p)
                  case Immediate(reply) =>
                    reply == ErrorReply(400, "body_rewrite_failed")
                    || reply == ErrorReply(500, "unresolved_injected_value")
  {
    if Served(ctx.endpoint) && router.resolve(ctx).Ok? { Forwarded(router.resolve(ctx).value, ctx); }
  }

  /** A request for one document goes in its own method, without a body. */
  lemma BodylessForwarded(router: Router, ctx: Ctx)
    requires ctx.endpoint == GetById || ctx.endpoint == DeleteById
    ensures Prepare(router, ctx).Upstream? ==>
              Prepare(router, ctx).f.body == "" && ParseMethod(Prepare(router, ctx).f.verb) == Some(ctx.verb)
  {
  }

  /** A document is refused for a value that was to come from the request, whatever the document. */
  lemma RequestValueRefused(router: Router, ctx: Ctx, p: Resolved, i: nat)
    requires router.resolve(ctx) == Ok(p) && ctx.endpoint == IngestDoc && router.admitWrite(p.partition, p.epoch)
    requires i < |p.transform.Injected()| && FromRequest(p.transform.Injected()[i].value)
    ensures Prepare(router, ctx) == Immediate(ErrorReply(500, "unresolved_injected_value"))
  {
    ResolvedIff(p.transform.Injected(), p.partition);
  }

  /** A request in a method the proxy does not handle is refused before anything else. */
  lemma MethodRefusedIff(f: Brain, req: Request)
    ensures FromFilter(req).None? <==> req.verb !in {"GET", "PUT", "POST", "DELETE", "HEAD"}
    ensures req.verb !in {"GET", "PUT", "POST", "DELETE", "HEAD"} ==>
              Handled(f, req) == Replied(ErrorReply(400, "unsupported_method"))
  {
    HandledIs(f, req);
  }
}
