/** Asynchronous writes (crates/evoxy-filter/src/asyncwrite.rs): the transformed write is
    produced to a durable log, and `202` is answered only once the broker has acknowledged. */
module AsyncWrite {
  import opened Common
  import opened Adapter
  import opened Transform
  import opened Route
  import opened Filter
  import opened Prefixed

  const WRITE_MODE_HEADER := "x-evoxy-write-mode"

  predicate WantsAsync(headers: Headers) {
    headers != [] && ((EqIgnoreCase(headers[0].0, WRITE_MODE_HEADER) && EqIgnoreCase(headers[0].1, "async"))
                      || WantsAsync(headers[1..]))
  }

  /** The produced record: the physical path is its key, the body its payload. */
  datatype Record = Record(path: string, body: string)

  /** The broker: a record is in the log when it was acknowledged. */
  class Sink {
    var log: seq<Record>

    constructor ()
      ensures log == []
    {
      log := [];
    }

    /** `acknowledged` is the broker's answer, which the caller cannot foresee. */
    method ProduceAcked(path: string, body: string, acknowledged: bool) returns (ok: bool)
      modifies this
      ensures ok == acknowledged
      ensures log == if ok then old(log) + [Record(path, body)] else old(log)
    {
      ok := acknowledged;
      if ok {
        log := log + [Record(path, body)];
      }
    }
  }

  // ----- the recorder -----

  /** What the recorder knows: the path as last set, the body as last set, the reply. */
  datatype Capture = Capture(path: string, body: string, immediate: Option<Reply>)

  function Captured(c: Capture, e: Effect): Capture {
    match e
    case SetPath(path) => c.(path := path)
    case SetBody(body) => c.(body := body)
    case LocalReply(status, text) => c.(immediate := Some(Reply(status, text)))
    case _ => c
  }

  function CapturedAll(c: Capture, effects: seq<Effect>): Capture
    decreases effects
  {
    if effects == [] then c else CapturedAll(Captured(c, effects[0]), effects[1..])
  }

  class CaptureActions {
    var path: string
    var body: string
    var immediate: Option<Reply>

    function State(): Capture
      reads this
    {
      Capture(path, body, immediate)
    }

    constructor (path: string)
      ensures State() == Capture(path, "", None)
    {
      this.path, body, immediate := path, "", None;
    }

    method Perform(e: Effect)
      modifies this
      ensures State() == Captured(old(State()), e)
    {
      match e {
        case SetPath(p) => path := p;
        case SetBody(b) => body := b;
        case LocalReply(status, text) => immediate := Some(Reply(status, text));
        case _ =>
      }
    }

    method PerformAll(effects: seq<Effect>)
      modifies this
      ensures State() == CapturedAll(old(State()), effects)
    {
      assert effects[0..] == effects;
      for i := 0 to |effects|
        invariant CapturedAll(State(), effects[i..]) == CapturedAll(old(State()), effects)
      {
        assert effects[i..][0] == effects[i] && effects[i..][1..] == effects[i + 1..];
        Perform(effects[i]);
      }
    }
  }

  // ----- one asynchronous write -----

  const ReadUnsupported := ErrorReply(400, "async_write_read_unsupported")
  const Unavailable := ErrorReply(503, "async_write_unavailable")
  const FanoutUnavailable := ErrorReply(503, "fanout_unavailable")

  function Accepted(opId: string): Reply {
    Reply(202, "{\"status\":\"accepted\",\"op_id\":\"" + opId + "\"}")
  }

  function CaptureOf(f: Brain, req: Request): Capture {
    CapturedAll(Capture(req.pathAndQuery, "", None), HandleEffects(f, req))
  }

  /** The reply of one asynchronous write and the record it leaves in the log, if any. */
  function Written(f: Brain, req: Request, hasSink: bool, acknowledged: bool, opId: Record -> string)
    : (Reply, seq<Record>)
  {
    if !IsWrite(f, req) then (ReadUnsupported, [])
    else if !hasSink then (Unavailable, [])
    else
      var c := CaptureOf(f, req);
      if c.immediate.Some? then (c.immediate.value, [])
      else if acknowledged then (Accepted(opId(Record(c.path, c.body))), [Record(c.path, c.body)])
      else (FanoutUnavailable, [])
  }

  method Write(f: Brain, req: Request, sink: Sink?, acknowledged: bool, opId: Record -> string)
    returns (reply: Reply)
    modifies sink
    ensures reply == Written(f, req, sink != null, acknowledged, opId).0
    ensures sink != null ==> sink.log == old(sink.log) + Written(f, req, true, acknowledged, opId).1
  {
    if !IsWrite(f, req) {
      return ReadUnsupported;
    }
    if sink == null {
      return Unavailable;
    }
    var actions := new EnvoyActions();
    var _ := Handle(f, req, actions);
    assert actions.calls == HandleEffects(f, req);
    var capture := new CaptureActions(req.pathAndQuery);
    capture.PerformAll(actions.calls);
    if capture.immediate.Some? {
      return capture.immediate.value;
    }
    var ok := sink.ProduceAcked(capture.path, capture.body, acknowledged);
    if ok {
      reply := Accepted(opId(Record(capture.path, capture.body)));
    } else {
      reply := FanoutUnavailable;
    }
  }

  // ----- what the recorder captures -----

  predicate SetsBody(effects: seq<Effect>) {
    effects != [] && (effects[0].SetBody? || SetsBody(effects[1..]))
  }

  /** The recorder and the outcome tell the same reply or the same path. */
  predicate SameView(c: Capture, o: Outcome) {
    match o
    case Replied(reply) => c.immediate == Some(reply)
    case Forwarded(_, path, _, _, _, _) => c.immediate == None && c.path == path
  }

  lemma {:induction false} CaptureView(c: Capture, o: Outcome, effects: seq<Effect>)
    requires SameView(c, o)
    ensures SameView(CapturedAll(c, effects), TakeAll(o, effects))
    decreases effects
  {
    if effects != [] { CaptureView(Captured(c, effects[0]), Take(o, effects[0]), effects[1..]); }
  }

  /** A body that was set is the outcome's; one never set is what each started with. */
  lemma {:induction false} CaptureBody(c: Capture, o: Outcome, effects: seq<Effect>)
    requires o.Forwarded? && TakeAll(o, effects).Forwarded?
    ensures var (last, out) := (CapturedAll(c, effects), TakeAll(o, effects));
            if SetsBody(effects) then last.body == out.body else last.body == c.body && out.body == o.body
    decreases effects
  {
    if effects != [] {
      if Take(o, effects[0]).Replied? { NoReplyBefore(Take(o, effects[0]), effects[1..]); }
      CaptureBody(Captured(c, effects[0]), Take(o, effects[0]), effects[1..]);
    }
  }

  lemma CaptureHandled(f: Brain, req: Request)
    ensures SameView(CaptureOf(f, req), Handled(f, req))
  {
    CaptureView(Capture(req.pathAndQuery, "", None), Untouched(req), HandleEffects(f, req));
  }

  lemma {:induction false} NoReplyBefore(o: Outcome, effects: seq<Effect>)
    requires o.Replied?
    ensures TakeAll(o, effects).Replied?
    decreases effects
  {
    if effects != [] { NoReplyBefore(Take(o, effects[0]), effects[1..]); }
  }

  lemma {:induction false} SetsBodyConcat(a: seq<Effect>, b: seq<Effect>)
    ensures SetsBody(a + b) <==> SetsBody(a) || SetsBody(b)
  {
    if a == [] {
      assert a + b == b;
    } else {
      SetsBodyConcat(a[1..], b);
      assert (a + b)[1..] == a[1..] + b;
    }
  }

  lemma ForwardSetsBody(p: Prepared)
    ensures SetsBody(ForwardEffects(Upstream(p)))
  {
    var lead := [SetCluster(p.cluster)] + HostEffects(p.upstreamHost);
    var line := [SetMethod(p.verb), SetPath(p.path), SetBody(p.body)];
    SetsBodyConcat(lead + line, HeaderEffects(p.headerOps));
    SetsBodyConcat(lead, line);
    assert line[1..][1..] == [SetBody(p.body)];
    assert SetsBody(line[1..][1..]) && SetsBody(line[1..]) && SetsBody(line);
  }

  lemma PassSetsNoBody(f: Brain, req: Request)
    ensures !SetsBody(PassEffects(f, req))
  {
    var r := RewriteForPath(f, req);
    if r.Some? { assert [SetPath(r.value.pathAndQuery)][1..] == []; }
  }

  lemma BodySetUnlessPassed(f: Brain, req: Request)
    requires Handled(f, req).Forwarded?
    ensures SetsBody(HandleEffects(f, req)) <==> !Passes(f, req)
  {
    HandledIs(f, req);
    PassSetsNoBody(f, req);
    var ctx := FromFilter(Seen(f, req)).value;
    var forward := Prepare(f.router, ctx);
    if forward.Upstream? { ForwardSetsBody(forward.f); }
  }

  // ----- the honest reply -----

  /** No refusal of the brain has status 202. */
  ghost predicate RefusalsAreNotAccepted(f: Brain) {
    forall req :: Handled(f, req).Replied? ==> Handled(f, req).reply.status != 202
  }

  /** Every refusal the brain can give is an error status, whatever the router decides. */
  lemma RefusalsAreErrors(f: Brain)
    ensures RefusalsAreNotAccepted(f)
    ensures forall req :: Handled(f, req).Replied? ==> Handled(f, req).reply.status >= 400
  {
    forall req | Handled(f, req).Replied? ensures Handled(f, req).reply.status >= 400 {
      HandledIs(f, req);
      var ctx := FromFilter(Seen(f, req));
      if ctx.Some? { PreparedErrors(f.router, ctx.value); }
    }
  }

  lemma PreparedErrors(router: Router, ctx: Ctx)
    ensures Prepare(router, ctx).Immediate? ==> Prepare(router, ctx).reply.status >= 400
  {
  }

  /** `202` is answered exactly when a record was acknowledged, and every other reply leaves
      the log as it was. A fail-closed request is answered as the synchronous path answers it. */
  lemma HonestReply(f: Brain, req: Request, hasSink: bool, acknowledged: bool, opId: Record -> string)
    ensures var (reply, records) := Written(f, req, hasSink, acknowledged, opId);
            && |records| == (if reply.status == 202 then 1 else 0)
            && (reply.status == 202 <==>
                IsWrite(f, req) && hasSink && acknowledged && Handled(f, req).Forwarded?)
            && (IsWrite(f, req) && hasSink && Handled(f, req).Replied? ==> reply == Handled(f, req).reply)
  {
    RefusalsAreErrors(f);
    CaptureHandled(f, req);
  }

  /** The record of an accepted write has the path the synchronous path would forward, and its
      body too, exactly when the request does not bypass tenancy or came without a body: a
      bypassed write is recorded with an empty body. */
  lemma RecordIsForwardedIff(f: Brain, req: Request, opId: Record -> string)
    requires IsWrite(f, req) && Handled(f, req).Forwarded?
    ensures var records := Written(f, req, true, true, opId).1;
            && |records| == 1 && records[0].path == Handled(f, req).path
            && (records[0].body == Handled(f, req).body <==> !Passes(f, req) || req.body == "")
  {
    CaptureHandled(f, req);
    CaptureBody(Capture(req.pathAndQuery, "", None), Untouched(req), HandleEffects(f, req));
    BodySetUnlessPassed(f, req);
  }

  lemma CodeText(a: string, b: string)
    ensures ErrorReply(400, a) == ErrorReply(400, b) ==> a == b
  {
    var lead, tail := "{\"error\":\"", "\"}";
    if ErrorReply(400, a) == ErrorReply(400, b) {
      var s := ErrorReply(400, a).body;
      assert |a| == |b|;
      assert s[|lead|..|lead| + |a|] == a && s[|lead|..|lead| + |b|] == b;
    }
  }

  lemma RefusalCodes(e: SpiError)
    ensures SpiReply(e) != ReadUnsupported
  {
    CodeText(SpiCode(e), "async_write_read_unsupported");
    assert |SpiCode(e)| < 28 && |"async_write_read_unsupported"| == 28;
  }

  /** The brain itself never answers that a read is unsupported. */
  lemma NeverReadUnsupported(f: Brain, req: Request)
    ensures Handled(f, req) != Replied(ReadUnsupported)
  {
    HandledIs(f, req);
    CodeText("unsupported_method", "async_write_read_unsupported");
    CodeText("body_rewrite_failed", "async_write_read_unsupported");
    assert |"async_write_read_unsupported"| == 28 && |"unsupported_method"| == 18 && |"body_rewrite_failed"| == 19;
    var ctx := FromFilter(Seen(f, req));
    if ctx.Some? {
      match f.router.resolve(ctx.value)
      case Err(e) => RefusalCodes(e);
      case Ok(p) => ForwardRefusals(p, ctx.value);
    }
  }

  lemma ForwardRefusals(p: Resolved, ctx: Ctx)
    ensures ForwardFor(p, ctx).Immediate? ==>
              ForwardFor(p, ctx).reply == ErrorReply(400, "body_rewrite_failed")
              || ForwardFor(p, ctx).reply.status >= 500
  {
  }

  /** Write detection skips the path rewrite: a tenant-prefixed request is refused as a read
      exactly when its path, tenant in the index's place, does not read as a write. */
  lemma PrefixedRefusedIff(f: Brain, req: Request, tenant: string, rest: string,
                           hasSink: bool, acknowledged: bool, opId: Record -> string)
    requires TenantFirst(req, tenant, rest)
    ensures Written(f, req, hasSink, acknowledged, opId).0 == ReadUnsupported
            <==> !ReadsAsWrite(ParseMethod(req.verb).value, tenant, Segments(PathOf(rest)))
  {
    PrefixedWriteIff(f, req, tenant, rest);
    NeverReadUnsupported(f, req);
    CaptureHandled(f, req);
  }

  // ----- whole runs -----

  datatype Attempt = Attempt(req: Request, hasSink: bool, acknowledged: bool)

  /** The reply and the records of each attempt. */
  function Results(f: Brain, run: seq<Attempt>, opId: Record -> string): (r: seq<(Reply, seq<Record>)>)
    ensures |r| == |run|
    ensures forall i :: 0 <= i < |run| ==>
              r[i] == Written(f, run[i].req, run[i].hasSink, run[i].acknowledged, opId)
  {
    seq(|run|, i requires 0 <= i < |run| => Written(f, run[i].req, run[i].hasSink, run[i].acknowledged, opId))
  }

  /** The log the attempts leave. */
  function Recorded(results: seq<(Reply, seq<Record>)>): seq<Record> {
    if results == [] then [] else Recorded(results[..|results| - 1]) + results[|results| - 1].1
  }

  /** The indices of the attempts answered 202, in order. */
  function AcceptedAt(results: seq<(Reply, seq<Record>)>): (r: seq<nat>)
    ensures forall i :: 0 <= i < |r| ==> r[i] < |results|
  {
    if results == [] then []
    else AcceptedAt(results[..|results| - 1])
         + if results[|results| - 1].0.status == 202 then [|results| - 1] else []
  }

  /** An accepted write left the one record the synchronous path would forward; any other
      left none. */
  predicate Truthful(reply: Reply, records: seq<Record>, o: Outcome) {
    if reply.status == 202 then o.Forwarded? && records == [Record(o.path, o.body)] else records == []
  }

  lemma AttemptTruthful(f: Brain, a: Attempt, opId: Record -> string)
    requires f.passthrough == {}
    ensures var w := Written(f, a.req, a.hasSink, a.acknowledged, opId);
            Truthful(w.0, w.1, Handled(f, a.req))
  {
    HonestReply(f, a.req, a.hasSink, a.acknowledged, opId);
    if Written(f, a.req, a.hasSink, a.acknowledged, opId).0.status == 202 {
      RecordIsForwardedIff(f, a.req, opId);
    }
  }

  /** The k-th record is the k-th accepted outcome. */
  predicate RecordsForwarded(outs: seq<Outcome>, log: seq<Record>, at: seq<nat>) {
    |log| == |at| && forall k :: 0 <= k < |at| ==>
      at[k] < |outs| && outs[at[k]].Forwarded? && log[k] == Record(outs[at[k]].path, outs[at[k]].body)
  }

  lemma {:induction false} TruthfulRun(outs: seq<Outcome>, results: seq<(Reply, seq<Record>)>)
    requires |outs| == |results|
    requires forall i :: 0 <= i < |results| ==> Truthful(results[i].0, results[i].1, outs[i])
    ensures RecordsForwarded(outs, Recorded(results), AcceptedAt(results))
  {
    if results != [] {
      var n := |results| - 1;
      TruthfulRun(outs[..n], results[..n]);
      assert Truthful(results[n].0, results[n].1, outs[n]);
    }
  }

  /** What the synchronous path would have done with each request. */
  function Outcomes(f: Brain, run: seq<Attempt>): (r: seq<Outcome>)
    ensures |r| == |run| && forall i :: 0 <= i < |run| ==> r[i] == Handled(f, run[i].req)
  {
    seq(|run|, i requires 0 <= i < |run| => Handled(f, run[i].req))
  }

  /** Over every run without passthrough indices: as many `202` replies as records in the
      log, and in the same order each record is the path and body the synchronous path would
      have forwarded. */
  lemma RunIsHonest(f: Brain, run: seq<Attempt>, opId: Record -> string)
    requires f.passthrough == {}
    ensures RecordsForwarded(Outcomes(f, run), Recorded(Results(f, run, opId)), AcceptedAt(Results(f, run, opId)))
  {
    var outs, results := Outcomes(f, run), Results(f, run, opId);
    forall i | 0 <= i < |results| ensures Truthful(results[i].0, results[i].1, outs[i]) {
      AttemptTruthful(f, run[i], opId);
    }
    TruthfulRun(outs, results);
  }
}
